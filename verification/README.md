# Expectation tracker of the entitlement API test listener

This project models the completion coordinator that the entitlement tests of the
billing platform register on the event bus (`ApiTestListener`). Before a test
drives a subscription transition, it announces the events it expects:
MIGRATE_ENTITLEMENT, MIGRATE_BILLING, CREATE, RE_CREATE, CHANGE, CANCEL or PHASE.
The listener receives each subscription event and dispatches it on the event's
transition tag. It crosses the matching expectation off its list, and it marks
the API as completed once the list is empty. Repair events are tracked on their
own, with a pair of booleans.

The model has three files:

- `events.dfy` (module `Events`) holds the two enumerations and the dispatcher's
  routing rule. `NextEvent` has the seven expected events. `TransitionType` has
  the eight tags the dispatcher names, plus `Unlisted` for any tag that reaches
  its `default` branch. `RouteOf` gives the routing rule.
- `expectations.dfy` (module `Expectations`) is the listener's state as a value,
  `Tracker`, with one step function per operation. `RemoveFirst` is the
  match-and-remove on the list. The file also holds the lemmas about several
  operations in a row.
- `listener.dfy` (module `Listener`) is the class `ApiTestListener`. It has the
  list as a `seq` field and the three flags as `bool` fields, updated in place.
  Each method states its new state field by field and ties it to the step
  function of `Expectations`. The methods keep the class invariant
  `Valid()`: the API is completed only when nothing is outstanding, and a repair
  is completed only when one was expected.

A failed `Assert.fail` or a thrown `RuntimeException` becomes an `Outcome.Fail`
carrying a `Failure`. In every such case the state is left unchanged, as in the
source: the exception leaves before the completion check runs.

## Model

| member | source | states |
|---|---|---|
| `Events.RouteOf` | entitlement/src/test/java/com/ning/billing/entitlement/api/ApiTestListener.java:73-101 | A tag routed to an expected event is the tag of that event's name. Exactly UNCANCEL is ignored, and exactly an unlisted tag is rejected. |
| `Events.RouteOfTagOf` | entitlement/src/test/java/com/ning/billing/entitlement/api/ApiTestListener.java:73-101 | Each expected event is reached by exactly one tag, the one with its own name. |
| `Expectations.RemoveFirst` | entitlement/src/test/java/com/ning/billing/entitlement/api/ApiTestListener.java:167-184 | An absent event leaves the list unchanged. A present one shortens it by one. |
| `Expectations.RemoveFirstMultiset` | entitlement/src/test/java/com/ning/billing/entitlement/api/ApiTestListener.java:167-184 | The remaining list holds the same events as before, minus exactly one copy of the matched event (none if it was absent). |
| `Expectations.RemoveFirstAt` | entitlement/src/test/java/com/ning/billing/entitlement/api/ApiTestListener.java:169-178 | When `i` is the lowest index holding the event, exactly element `i` is removed and the rest keep their order. |
| `Expectations.ReceiveEffect` | entitlement/src/test/java/com/ning/billing/entitlement/api/ApiTestListener.java:155-197 | A handler succeeds iff its event is outstanding. It then removes the first occurrence and sets the API completed iff the list became empty, leaving the repair flags alone and keeping the invariant. Otherwise it fails, naming the event and the outstanding list. |
| `Expectations.HandleDispatch` | entitlement/src/test/java/com/ning/billing/entitlement/api/ApiTestListener.java:73-101 | A named tag other than UNCANCEL runs the handler of its name. UNCANCEL changes nothing and succeeds. Any other tag fails with an unsupported-transition error. |
| `Expectations.RepairTrackingIsSeparate` | entitlement/src/test/java/com/ning/billing/entitlement/api/ApiTestListener.java:60-114 | Expecting a repair and receiving one never touch the list or the API flag. A repair event completes the repair iff one was expected (or it already was complete). Dispatching a subscription event never touches the repair flags. |
| `Expectations.PushAllEffect` | entitlement/src/test/java/com/ning/billing/entitlement/api/ApiTestListener.java:104-109 | A run of pushes appends the events in order and leaves the API not completed. It keeps the invariant. |
| `Expectations.HandleAllEffect` | entitlement/src/test/java/com/ning/billing/entitlement/api/ApiTestListener.java:167-231 | Delivering a run of events succeeds iff they form a sub-multiset of the outstanding list. What remains is the difference. After at least one delivery, the API is completed iff nothing remains. A run of no events changes nothing. |
| `Expectations.DeliveringAllExpectedCompletes` | entitlement/src/test/java/com/ning/billing/entitlement/api/ApiTestListener.java:155-197 | Delivering any permutation of a non-empty outstanding list empties it and completes the API. The repair flags are untouched. |
| `Expectations.NotCompletedBeforeLast` | entitlement/src/test/java/com/ning/billing/entitlement/api/ApiTestListener.java:155-165 | After delivering a non-empty proper prefix of such a permutation, every delivery succeeded and the API is still not completed, so it completes only with the last event. |
| `Expectations.PushThenDeliverCompletes` | entitlement/src/test/java/com/ning/billing/entitlement/api/ApiTestListener.java:104-197 | From a reset listener, pushing a non-empty list and then delivering any permutation of it ends with an empty list and the API completed, and nothing else set. |
| `Listener.ApiTestListener.constructor` | entitlement/src/test/java/com/ning/billing/entitlement/api/ApiTestListener.java:54-57 | A new listener has an empty list and all three flags false. |
| `Listener.ApiTestListener.Reset` | entitlement/src/test/java/com/ning/billing/entitlement/api/ApiTestListener.java:148-153 | Clears the list and all three flags. |
| `Listener.ApiTestListener.PushNextApiExpectedEvent` | entitlement/src/test/java/com/ning/billing/entitlement/api/ApiTestListener.java:104-109 | The new list is the old one with the event appended. The API flag is false, the repair flags are unchanged, and the invariant is kept. |
| `Listener.ApiTestListener.ExpectRepairCompletion` | entitlement/src/test/java/com/ning/billing/entitlement/api/ApiTestListener.java:111-114 | A repair is expected and not completed. The list and the API flag are unchanged. |
| `Listener.ApiTestListener.IsRepairCompleted` | entitlement/src/test/java/com/ning/billing/entitlement/api/ApiTestListener.java:116-130 | Returns the repair flag. True means a repair was expected. |
| `Listener.ApiTestListener.IsApiCompleted` | entitlement/src/test/java/com/ning/billing/entitlement/api/ApiTestListener.java:132-146 | Returns the API flag. True means no event is outstanding. |
| `Listener.ApiTestListener.NotifyIfStackEmpty` | entitlement/src/test/java/com/ning/billing/entitlement/api/ApiTestListener.java:155-165 | Sets the API flag when the list is empty. Otherwise the flag is left as it was. |
| `Listener.ApiTestListener.AssertEqualsNicely` | entitlement/src/test/java/com/ning/billing/entitlement/api/ApiTestListener.java:167-184 | Reports a match iff the event was in the list. On a match it removes exactly its lowest-index occurrence. Otherwise the list is unchanged. |
| `Listener.ApiTestListener.SubscriptionMigrated` | entitlement/src/test/java/com/ning/billing/entitlement/api/ApiTestListener.java:187-191 | Succeeds iff MIGRATE_ENTITLEMENT is outstanding. It then removes it and runs the completion check. On failure the state is unchanged. |
| `Listener.ApiTestListener.SubscriptionCreated` | entitlement/src/test/java/com/ning/billing/entitlement/api/ApiTestListener.java:193-197 | The same, for CREATE. |
| `Listener.ApiTestListener.SubscriptionReCreated` | entitlement/src/test/java/com/ning/billing/entitlement/api/ApiTestListener.java:199-203 | The same, for RE_CREATE. |
| `Listener.ApiTestListener.SubscriptionCancelled` | entitlement/src/test/java/com/ning/billing/entitlement/api/ApiTestListener.java:206-210 | The same, for CANCEL. |
| `Listener.ApiTestListener.SubscriptionChanged` | entitlement/src/test/java/com/ning/billing/entitlement/api/ApiTestListener.java:213-217 | The same, for CHANGE. |
| `Listener.ApiTestListener.SubscriptionPhaseChanged` | entitlement/src/test/java/com/ning/billing/entitlement/api/ApiTestListener.java:220-225 | The same, for PHASE. |
| `Listener.ApiTestListener.SubscriptionMigratedBilling` | entitlement/src/test/java/com/ning/billing/entitlement/api/ApiTestListener.java:227-231 | The same, for MIGRATE_BILLING. |
| `Listener.ApiTestListener.HandleEntitlementEvent` | entitlement/src/test/java/com/ning/billing/entitlement/api/ApiTestListener.java:73-101 | UNCANCEL succeeds and changes nothing. An unlisted tag fails with an unsupported-transition error and changes nothing. Every other tag behaves as the handler of its name. The invariant is kept. |
| `Listener.ApiTestListener.HandleRepairEvent` | entitlement/src/test/java/com/ning/billing/entitlement/api/ApiTestListener.java:59-70 | Completes the repair only if one was expected. The list, the API flag and the repair expectation are unchanged. |

## Left out

- Blocking and threads are not modelled. This covers `synchronized`, `wait(timeout)` and `notify()` in the two completion queries, in `notifyIfStackEmpty` and in `handleRepairEvent`. The model is sequential, so the queries return the flag as it stands, and the `timeout` argument is dropped.
- Listener.ApiTestListener.IsApiCompleted: it is weaker than the source, because in the source another thread may complete the expectations while the caller waits. The same holds for Listener.ApiTestListener.IsRepairCompleted.
- Bus registration through `@Subscribe` is not modelled. It is reflection inside the bus library. The constructor's `Bus` argument is unused in the source and is dropped.
- Event payloads are not modelled. A subscription event is reduced to its transition tag, and a repair event carries nothing (its bundle id is only logged).
- Logging and the text of the failure messages are not modelled. A failure carries the wanted event and the outstanding list, or the rejected tag. The `default` branch's message quotes the requested transition time; the model records the tag instead.
- The AccountChanged/AccountCreated JSON round trip (`account/src/test/java/com/ning/billing/account/api/user/TestEventJson.java`) is not part of this model. It exercises a JSON mapper and event classes whose code is not available.
- The event bus itself, the subscription state machine and the event codec are not part of this model. None of their code is available.
- The expectations could be kept as a counted bag. The code keeps an insertion-ordered list and removes the first equal element, and the model follows the code. `RemoveFirst` and `HandleAllEffect` show that only the multiset matters for which deliveries succeed.
