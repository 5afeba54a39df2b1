# Mobility route: entrance-to-egress routing rule

This project models the one piece of logic in the mobility application: the
Camel route `FromEntranceToElevatorOrStairs` built in `MobilityRoute.configure()`.
The route reads move requests (`MoveLog` records: `personId`, `destination`,
`preferredRoute`) from the entrance topic. It classifies each request by an exact,
case-sensitive match of `preferredRoute` against `"elevator"` and `"stairs"`. It
holds a matched request for a delay given by the expressions
`${body.destination} * 10000` (elevator) and `${body.destination} * 30000` (stairs),
which the model reads as integer products in milliseconds. Then it forwards the request, unchanged, to the
elevator or the stairs topic. Any other tag is dropped silently, because the
`choice()` has no `otherwise()` branch.

Files:
- `move_log.dfy` (module `MoveLogs`): the request record. The `MoveLog` class
  (com.redhat.quarkus.model.MoveLog) is modelled from its uses: the test compares
  `personId` with `1L` and `destination` with `1`, so both are integers, and
  `preferredRoute` is compared with string tags. Restricting `destination` to
  non-negative values is the model's choice, since the route has no guard for
  negative floors.
- `mobility_route.dfy` (module `MobilityRoute`): `Classify`, `DelayFor`, `Dispatch`
  and the lemmas about one request.
- `route_stream.dfy` (module `RouteStream`): the route applied to each inbound
  record in turn, with counting lemmas per topic and the proof that every
  routable record is forwarded exactly once.

Constants follow the code, not its comments. Line 22 says "30 seconds per floor"
beside the elevator multiplier 10000 ms. Line 28 says "10 seconds per floor" beside
the stairs multiplier 30000 ms. The model uses the multipliers the code applies:
`ElevatorMsPerFloor = 10000` and `StairsMsPerFloor = 30000`. In the code they
are literals, so the model keeps them as named constants.

## Model

| member | source | states |
|---|---|---|
| `MobilityRoute.Classify` | src/main/java/com/redhat/quarkus/routes/MobilityRoute.java:19-32 | Elevator exactly when the tag equals "elevator", Stairs exactly when it equals "stairs", Unroutable exactly when it equals neither (total, case-sensitive) |
| `MobilityRoute.ChannelFor` | src/main/java/com/redhat/quarkus/routes/MobilityRoute.java:24 | a routed decision goes to the elevator topic exactly when it is Elevator, otherwise to the stairs topic (line 30) |
| `MobilityRoute.DelayFor` | src/main/java/com/redhat/quarkus/routes/MobilityRoute.java:22 | an elevator delay is destination * 10000 ms and a stairs delay destination * 30000 ms (line 28), and either is zero exactly for floor 0 |
| `MobilityRoute.Dispatch` | src/main/java/com/redhat/quarkus/routes/MobilityRoute.java:18-32 | at most one publication; none exactly when the request is unroutable; any publication carries the request unchanged, on the decision's topic, with the decision's delay |
| `MobilityRoute.ElevatorRouting` | src/main/java/com/redhat/quarkus/routes/MobilityRoute.java:20-25 | an "elevator" request yields exactly one publication, on the elevator topic with delay destination * 10000, and none on the stairs topic |
| `MobilityRoute.StairsRouting` | src/main/java/com/redhat/quarkus/routes/MobilityRoute.java:26-31 | a "stairs" request yields exactly one publication, on the stairs topic with delay destination * 30000, and none on the elevator topic |
| `MobilityRoute.SilentDrop` | src/main/java/com/redhat/quarkus/routes/MobilityRoute.java:19-32 | any other tag yields no publication on either topic |
| `MobilityRoute.NearMissesDropped` | src/main/java/com/redhat/quarkus/routes/MobilityRoute.java:20 | "Elevator", "STAIRS", the empty tag and "escalator" are all dropped |
| `MobilityRoute.Exclusivity` | src/main/java/com/redhat/quarkus/routes/MobilityRoute.java:19-32 | for every request the publications over both topics number at most one, and never one on each |
| `MobilityRoute.ZeroFloorZeroDelay` | src/main/java/com/redhat/quarkus/routes/MobilityRoute.java:22 | floor 0 gives zero delay on either route (line 28 for stairs) |
| `MobilityRoute.DelayStrictlyIncreasing` | src/main/java/com/redhat/quarkus/routes/MobilityRoute.java:22 | for a fixed route, a higher destination gives a strictly longer delay (line 28 for stairs) |
| `MobilityRoute.DelayMonotone` | src/main/java/com/redhat/quarkus/routes/MobilityRoute.java:28 | for a fixed route the delay is non-decreasing in the destination (line 22 for the elevator) |
| `MobilityRoute.StairsTripleElevator` | src/main/java/com/redhat/quarkus/routes/MobilityRoute.java:22-28 | the stairs delay is three times the elevator delay for the same floors: strictly greater above floor 0, equal at floor 0 |
| `MobilityRoute.PayloadPreserved` | src/main/java/com/redhat/quarkus/routes/MobilityRoute.java:18-29 | a forwarded payload has the inbound personId, destination and preferredRoute |
| `MobilityRoute.RecordedScenarios` | src/test/java/com/redhat/quarkus/routes/MobilityRouteTest.java:30-79 | the main route applied to the tests' two inputs (person 1 to floor 1): one publication on the elevator topic (delay 10000 ms) or one on the stairs topic (delay 30000 ms), matching the tests' expected message counts of 1 and 0; the tests' payload predicates (lines 46-48, 73-75) are negated, so the model does not use them as evidence, and the tests' route copy has the delays commented out |
| `RouteStream.DispatchAll` | src/main/java/com/redhat/quarkus/routes/MobilityRoute.java:16-32 | the route never publishes more messages than it consumed |
| `RouteStream.ForwardedAreRoutable` | src/main/java/com/redhat/quarkus/routes/MobilityRoute.java:16-32 | the forwarded payloads are exactly the routable records in arrival order, so as multisets too: no routable record is lost, none duplicated |
| `RouteStream.RoutableRecordForwarded` | src/main/java/com/redhat/quarkus/routes/MobilityRoute.java:19-31 | every routable record has its own publication in the output, on its topic with its delay |
| `RouteStream.TagsPartitionRecords` | src/main/java/com/redhat/quarkus/routes/MobilityRoute.java:19-32 | "elevator" records, "stairs" records and dropped records together account for every record consumed |
| `RouteStream.ElevatorCountMatchesTags` | src/test/java/com/redhat/quarkus/routes/MobilityRouteTest.java:35-39 | over any sequence of inbound records, the elevator topic receives exactly as many messages as there are "elevator" records |
| `RouteStream.StairsCountMatchesTags` | src/test/java/com/redhat/quarkus/routes/MobilityRouteTest.java:60-64 | over any sequence of inbound records, the stairs topic receives exactly as many messages as there are "stairs" records |
| `RouteStream.ForwardedPlusDropped` | src/main/java/com/redhat/quarkus/routes/MobilityRoute.java:19-32 | count identity: messages sent plus records dropped equals records consumed (that each routable record is sent exactly once is ForwardedAreRoutable) |
| `RouteStream.PublicationsJustified` | src/main/java/com/redhat/quarkus/routes/MobilityRoute.java:16-32 | every message sent is an inbound record, unchanged and routable, on the topic and with the delay the rule assigns to it |

## Left out

- Kafka endpoints and the `{{kafka.topic...}}` placeholders (lines 16, 24, 30): broker I/O and external configuration. The topics are the two-valued `Channel`.
- Jackson unmarshal and marshal (lines 18, 23, 29): a foreign library. The request is an already-parsed record, and the round trip is taken as identity. This also leaves out Jackson turning the numeric string `"1"` into the integer destination 1.
- Camel's own evaluation of the simple-language text `${body.destination} * 10000`: the model reads it as integer multiplication.
- DelayFor: does not model the overflow of a bounded Java integer in `destination * 10000` (above 214748 floors for a 32-bit int) or `destination * 30000` (above 71582 floors), because the model uses unbounded `nat`.
- The timing of `delay()`, scheduling and concurrent in-flight requests: the delay is a number attached to the publication, not elapsed time. So `DispatchAll` lists publications in arrival order, not in the order their delays expire. The model says nothing about ordering across requests, and the source guarantees none.
- Negative destinations: the source has no guard for them, so `destination` is a `nat`.
- The `.log(...)` calls, the `@ApplicationScoped` bootstrap and the `RouteBuilder` registration are side effects or framework plumbing.
- The test file's own route copy and mock endpoints are test harness. Only its expected message counts and inputs are used, as scenarios. Its payload predicates are negated (`!...equals(...)`), which taken literally contradicts payload preservation, so they are not used as evidence.
