# DeviceHive WebSocket handlers: the request-decision layer

This project models, in Dafny, the part of DeviceHive's WebSocket front end
that decides what to do with a `command/*` or `network/*` request before, and
instead of, any service work: which devices a command subscription targets,
which arguments an unsubscribe hands to the command service, what the
connection's `commandSubscriptions` set holds, and the fixed order of null and
not-found checks in command insert/update and the network handlers, each with
its own HTTP status (400, 404 or 500).

Every handler is a pure function that returns a `Step`: the answer (a
`Response`, or the `Failure` the handler throws) together with the trace of
service calls it issued, in order. Service answers are parameters: the
devices the permission-checked lookup finds for the caller (`map<Guid,
Device>`), the commands the store finds by (id, device guid), the outcome of
`commandService.insert`, the networks `getWithDevices` finds, what `list`,
`create` and `delete` answer, and the subscription id the command service
allocates. Lookups are calls but not mutations (`Call.IsMutation`), so "no
side effect on error" reads as `Mutations(calls) == []`.

Modules:
- `Wrappers` (`wrappers.dfy`): `Option` (Java's `null`) and `Result` (a thrown exception).
- `Hive` (`hive.dfy`): principal, records, statuses, messages, failures, the call trace.
- `Validation` (`validation.dfy`): the reference definition of an ordered guard
  sequence, "the failure of the first guard that does not pass". The
  handlers' guards are proved to follow it.
- `CommandHandlers` (`command_handlers.dfy`): subscribe, unsubscribe, insert, update.
- `SubscriptionSession` (`subscription_session.dfy`): the connection's
  subscription set across any sequence of subscribe/unsubscribe requests.
- `NetworkHandlers` (`network_handlers.dfy`): list, get, insert, update, delete.

The connection's subscription set is raw in the source, so it is modelled as
a set of `SessionEntry` values: subscribe adds `StringEntry(id)`, while
unsubscribe removes `OptionalEntry(subscriptionId)`, the `Optional<String>`
the source passes. That unsubscribe removes nothing from a set of id strings
is therefore a theorem (`ReplayOnlyGrows`), not an assumption.

As in the source, the 404 that `command/update` throws when the device is not
found formats its message with the command id, not the device guid
(`DeviceNotFound(IdArg(id))`).

## Model

| member | source | states |
|---|---|---|
| CommandHandlers.PrepareActualList | devicehive-frontend/src/main/java/com/devicehive/websockets/handlers/CommandHandlers.java:201-219 | Neither the guid nor the guid set gives "no target". A guid set alone gives exactly its non-null members. A guid alone gives the singleton set. Both together give BAD_REQUEST with INVALID_REQUEST_PARAMETERS. |
| CommandHandlers.PrepareActualListTargetsNamedDevices | devicehive-frontend/src/main/java/com/devicehive/websockets/handlers/CommandHandlers.java:201-219 | Every device set the resolution yields is exactly the set of non-null devices the request names, and "no target" happens only when it names none. |
| CommandHandlers.CommandSubscribe | devicehive-frontend/src/main/java/com/devicehive/websockets/handlers/CommandHandlers.java:57-94 | Subscribe succeeds iff the scope resolves to a non-empty device set. With no scope, or only null/empty guids, it fails the non-empty assertion; with both fields it fails with 400. On failure there are no calls and the session set is unchanged. On success exactly one subscribe is submitted for the named devices, names and timestamp, and the issued id is returned and added to the session set. Nothing else in the set changes. |
| CommandHandlers.UnsubscribeArguments | devicehive-frontend/src/main/java/com/devicehive/websockets/handlers/CommandHandlers.java:103-116 | The subscription id is passed through unchanged. With neither an id nor guids, the guid argument is the one-element set holding `NULL_SUBSTITUTE`. Given guids are passed unchanged. The guid argument is null iff an id is given without guids. The service never receives null for both arguments. |
| CommandHandlers.UnsubscribeArgumentsCollide | devicehive-frontend/src/main/java/com/devicehive/websockets/handlers/CommandHandlers.java:103-116 | Two requests lead to the same unsubscribe call iff they are equal, or neither names a subscription and one names no guids while the other names exactly the `NULL_SUBSTITUTE` string. |
| CommandHandlers.EmptyUnsubscribeLooksLikeMarker | devicehive-frontend/src/main/java/com/devicehive/websockets/handlers/CommandHandlers.java:103-116 | An empty unsubscribe and one naming only the `NULL_SUBSTITUTE` guid send the identical call. |
| CommandHandlers.CommandUnsubscribe | devicehive-frontend/src/main/java/com/devicehive/websockets/handlers/CommandHandlers.java:97-124 | Unsubscribe always answers an empty response after exactly one unsubscribe call. As written, a session set of id strings comes back unchanged, and the set never grows. |
| CommandHandlers.CommandUnsubscribeCorrected | devicehive-frontend/src/main/java/com/devicehive/websockets/handlers/CommandHandlers.java:118-121 | With the evident intent restored, the given id is no longer in the set afterwards, and every other entry is kept. |
| CommandHandlers.ActingUser | devicehive-frontend/src/main/java/com/devicehive/websockets/handlers/CommandHandlers.java:144 | An insert is attributed to the principal's user, else to its access key's user. A principal with neither dereferences null. |
| CommandHandlers.InsertGuards | devicehive-frontend/src/main/java/com/devicehive/websockets/handlers/CommandHandlers.java:133-144 | A null guid gives 400. Otherwise a device not found gives 404 naming the guid. Otherwise a null command gives 400. Every guard passes iff the insert is planned with the request's command, the device found and the acting user. |
| CommandHandlers.CommandUpdateSubscribeAction | devicehive-frontend/src/main/java/com/devicehive/websockets/handlers/CommandHandlers.java:221-226 | A null command id gives 400 COLUMN_CANNOT_BE_NULL. Otherwise the update watch is submitted for that id and guid. |
| CommandHandlers.ThenApply | devicehive-frontend/src/main/java/com/devicehive/websockets/handlers/CommandHandlers.java:148-152 | The completion stage succeeds iff the inserted command has an id. It then answers with that id, timestamp and user id after registering the update watch. |
| CommandHandlers.Exceptionally | devicehive-frontend/src/main/java/com/devicehive/websockets/handlers/CommandHandlers.java:153-156 | Any failure reaching the `exceptionally` stage becomes a 500 INTERNAL_SERVER_ERROR. A success passes through. |
| CommandHandlers.CommandInsert | devicehive-frontend/src/main/java/com/devicehive/websockets/handlers/CommandHandlers.java:127-158 | A guard failure is reported as such, with no state-changing call. Insert succeeds iff the guards pass and the store returns a command with an id. Then the mutations are exactly the insert followed by the update watch. An insert failure, or a null id as written, gives 500. |
| CommandHandlers.CommandInsertCorrected | devicehive-frontend/src/main/java/com/devicehive/websockets/handlers/CommandHandlers.java:147-156 | With the evident intent restored, an insert failure gives 500 but a null command id keeps its 400. Successful inserts are identical to the as-written handler. |
| CommandHandlers.InsertWithNullIdDiscrepancy | devicehive-frontend/src/main/java/com/devicehive/websockets/handlers/CommandHandlers.java:147-156 | For an insert that returns no id, the as-written handler reports 500 and the corrected one 400. In both cases the insert has already happened. |
| CommandHandlers.CommandInsertFollowsChecks | devicehive-frontend/src/main/java/com/devicehive/websockets/handlers/CommandHandlers.java:133-147 | Insert reports the failure of the first failing guard of the reference sequence (guid, device, command, acting user). It changes state iff all of them pass. |
| CommandHandlers.UpdateTarget | devicehive-frontend/src/main/java/com/devicehive/websockets/handlers/CommandHandlers.java:169-173 | An update targets the request's guid, else the calling device's own guid. It has no target only when both are missing. |
| CommandHandlers.CommandUpdate | devicehive-frontend/src/main/java/com/devicehive/websockets/handlers/CommandHandlers.java:161-199 | Update checks run in order: a missing guid (after the fallback) gives 400 with no calls; then a missing id gives 400 with no calls; then a device not found gives 404; then a command not found gives 404. It succeeds iff all are present. Only then does it issue exactly one mutation, the update of the stored command with the request's patch, so it never creates a command. |
| CommandHandlers.CommandUpdateFollowsChecks | devicehive-frontend/src/main/java/com/devicehive/websockets/handlers/CommandHandlers.java:169-194 | Update's answer is the failure of the first failing reference guard, or an empty response. It changes state iff all guards pass. |
| SubscriptionSession.ReplayOnlyGrows | devicehive-frontend/src/main/java/com/devicehive/websockets/handlers/CommandHandlers.java:86-121 | After any sequence of subscribe and unsubscribe requests, the as-written session set is the initial set plus every id issued by a successful subscribe. Unsubscribe never removes anything. |
| SubscriptionSession.ReplayCorrectedWithinReplay | devicehive-frontend/src/main/java/com/devicehive/websockets/handlers/CommandHandlers.java:86-121 | With corrected unsubscribe, the set stays within the as-written one. Every entry was there initially or was issued along the way. |
| SubscriptionSession.SubscribeThenUnsubscribe | devicehive-frontend/src/main/java/com/devicehive/websockets/handlers/CommandHandlers.java:86-121 | Subscribing to one device and then unsubscribing the issued id leaves that id in the set as written. The corrected handler restores the initial set. |
| NetworkHandlers.SortFieldAcceptedIff | devicehive-frontend/src/main/java/com/devicehive/websockets/handlers/NetworkHandlers.java:77-81 | A sort field is accepted iff it is absent or its lower-case form is `id` or `name`, whatever case the caller used. |
| NetworkHandlers.EqualsIgnoreCaseIffLowerEqual | devicehive-frontend/src/main/java/com/devicehive/websockets/handlers/NetworkHandlers.java:78 | On ASCII folding, case-insensitive equality holds iff the lower-cased strings are equal. |
| NetworkHandlers.NetworkList | devicehive-frontend/src/main/java/com/devicehive/websockets/handlers/NetworkHandlers.java:72-96 | An unsortable field gives 400 INVALID_REQUEST_PARAMETERS with no calls. Otherwise, a caller without all networks and with no network ids gets an empty list and the service is not asked. Everyone else gets what `networkService.list` answers for the request and the caller's principal. Listing never changes state. |
| NetworkHandlers.SortFieldCheckedFirst | devicehive-frontend/src/main/java/com/devicehive/websockets/handlers/NetworkHandlers.java:77-87 | The sort-field refusal does not depend on the caller or on the service's answer. It precedes the empty-networks short cut. |
| NetworkHandlers.NetworkGet | devicehive-frontend/src/main/java/com/devicehive/websockets/handlers/NetworkHandlers.java:99-116 | A null id gives 400 NETWORK_ID_REQUIRED before any lookup. A network not found gives 404 NETWORK_NOT_FOUND. Otherwise the found network is answered. |
| NetworkHandlers.NetworkInsert | devicehive-frontend/src/main/java/com/devicehive/websockets/handlers/NetworkHandlers.java:120-133 | A null network gives 400 NETWORK_REQUIRED with no calls. Otherwise exactly one create is issued and its answer is returned. |
| NetworkHandlers.NetworkUpdate | devicehive-frontend/src/main/java/com/devicehive/websockets/handlers/NetworkHandlers.java:136-143 | Update has no guard. It issues exactly one update with the id and patch as received and answers an empty response. |
| NetworkHandlers.NetworkDelete | devicehive-frontend/src/main/java/com/devicehive/websockets/handlers/NetworkHandlers.java:146-156 | Delete is always attempted, exactly once. It succeeds with an empty response iff the service reports the network deleted, and otherwise gives 404 NETWORK_NOT_FOUND for that id. |
| NetworkHandlers.NetworkHandlersFollowChecks | devicehive-frontend/src/main/java/com/devicehive/websockets/handlers/NetworkHandlers.java:77-111 | List and get fail iff a reference guard fails, and then report the first failing guard's error. |
| NetworkHandlers.NetworkMutatorsFollowChecks | devicehive-frontend/src/main/java/com/devicehive/websockets/handlers/NetworkHandlers.java:122-155 | Insert fails iff its one reference guard (a network is given) fails, reports that guard's error, and creates iff it passes. Update has no guard and never fails. Delete fails iff the service answers false, and its failure comes after the delete was issued. |

## Left out

- Reading requests with Gson: request fields are `Option` values. In the source, `request.get(DEVICE_GUID).getAsString()` and the `COMMAND_ID` parse throw on a missing key before the handlers' own null checks run. The model lets an absent field reach those checks, as the checks are written to handle.
- The subscription registry, dispatcher, catch-up query and deduplication behind `DeviceCommandService`, and everything behind `DeviceService` and `NetworkService`, are not part of this model. Their answers are parameters, and their calls are recorded in the trace.
- Asynchronous plumbing: the `CompletableFuture` chains, the catch-up delivery callback (CommandHandlers.java:71-81) and `join`. Each service result is taken as already resolved. `join` wraps the 500 in a `CompletionException`; the model reports the `HiveException` itself.
- Authorization (`@PreAuthorize`, `SecurityContextHolder`) happens outside these functions. The principal's attributes are inputs, and `devices` stands for what the permission-checked lookup finds.
- `sendMessage`, `WebSocketResponse` and `ServerResponsesFactory` message shapes, and logging. These are I/O and serialization.
- The thread-safety of the `CopyOnWriteArraySet` session attribute. It is modelled as a plain set, and its presence on the session is assumed.
- `Constants` is not part of this model. `ID` and `NAME` are taken to be `id` and `name`, and `NULL_SUBSTITUTE` is taken to be `null`. The "all" marker is that plain string in a guid set, as in the source, so a client can send the same value; the collision lemmas hold whatever the string is.
- NetworkHandlers.SortFieldAcceptedIff: case folding covers ASCII letters only. Java's locale- and Unicode-aware `toLowerCase` and `equalsIgnoreCase` are not modelled. For example, the source accepts the sort field `ıd` (dotless i upper-cases to `I`), while the model answers 400.
- NetworkHandlers.EqualsIgnoreCaseIffLowerEqual: proved for ASCII folding only. It is false of Java's `equalsIgnoreCase`, for which `"ς".equalsIgnoreCase("σ")` holds although the two lower-cased strings differ.
- A null principal in `network/list` (wrapped in `Optional.ofNullable`, then dereferenced) is not modelled, because the handler requires an authenticated caller.
- Exceptions thrown by `networkService.create`, `update`, `getWithDevices` or `delete` (for instance, on a null id handed to `delete`) are not modelled. Those services are not part of this model.
- devicehive-backend/src/main/java/com/devicehive/application/JerseyConfig.java only wires one resource class under `/rest`, so it has no behaviour to model.

## Findings

| source | as written | input that shows it | evidently intended | confidence | as-written member | corrected member |
|---|---|---|---|---|---|---|
| devicehive-frontend/src/main/java/com/devicehive/websockets/handlers/CommandHandlers.java:118-121 | removes the `Optional<String>` wrapper from a set of id strings, so nothing is ever removed | subscribe to device `d`, getting id `s`; then unsubscribe with subscriptionId `s`: `s` stays in the session set | remove the id string itself | high; not executed | SubscriptionSession.SubscribeThenUnsubscribe | CommandHandlers.CommandUnsubscribeCorrected |
| devicehive-frontend/src/main/java/com/devicehive/websockets/handlers/CommandHandlers.java:147-156 | the 400 that `commandUpdateSubscribeAction` throws inside `thenApply` is caught by `exceptionally` and rethrown as 500 | an insert whose stored command comes back with a null id: answer 500 INTERNAL_SERVER_ERROR | keep 400 COLUMN_CANNOT_BE_NULL for the null id; 500 only for a failed insert | medium; not executed | CommandHandlers.InsertWithNullIdDiscrepancy | CommandHandlers.CommandInsertCorrected |
