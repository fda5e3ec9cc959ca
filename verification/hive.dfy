/**
 * Values shared by the WebSocket command and network handlers: the callers'
 * identity, the records the services hand back, the errors the handlers throw,
 * and the trace of service calls a handler issues.
 */
module Hive {
  import opened Wrappers

  type Guid = string
  type SubscriptionId = string

  /** A JSON array of strings as Gson reads it: an element may be JSON `null`. */
  type NullableSet = set<Option<string>>

  /** The HTTP status carried by a `HiveException`: 400, 404 or 500. */
  datatype Status = BadRequest | NotFound | InternalServerError

  /** The argument a formatted message was built from. */
  datatype MessageArg = GuidArg(guid: Guid) | IdArg(id: int)

  /** The `Messages` constants the handlers throw, with their format arguments. */
  datatype Message =
    | DeviceGuidRequired
    | DeviceNotFound(subject: MessageArg)
    | EmptyCommand
    | CommandIdRequired
    | CommandNotFound(commandId: int)
    | InvalidRequestParameters
    | ColumnCannotBeNull(column: string)
    | InternalError
    | NetworkIdRequired
    | NetworkNotFound(networkId: Option<int>)
    | NetworkRequired

  /** What a handler throws instead of answering. */
  datatype Failure =
    | HiveError(status: Status, message: Message)  // a HiveException
    | IllegalArgument                             // Spring's Assert.notEmpty
    | NullDereference                             // an unguarded null dereference

  datatype User = User(id: int)
  datatype AccessKey = AccessKey(user: Option<User>)
  datatype Device = Device(guid: Guid, name: string)

  /**
   * The authenticated caller. `allNetworksAvailable` is what the principal
   * reports; how it is derived is outside this model.
   */
  datatype Principal = Principal(
    user: Option<User>,
    key: Option<AccessKey>,
    device: Option<Device>,
    allNetworksAvailable: bool,
    networkIds: Option<set<int>>)

  /** The command body of an insert or update request, kept opaque. */
  datatype CommandWrapper = CommandWrapper(body: string)

  /** A command as the command store holds it. */
  datatype DeviceCommand = DeviceCommand(id: int, deviceGuid: Guid, timestamp: int, userId: Option<int>)

  /** The command the store hands back after an insert; its id may be null. */
  datatype InsertedCommand = InsertedCommand(id: Option<int>, timestamp: int, userId: Option<int>)

  /** The resolved future of `commandService.insert`. */
  datatype InsertOutcome = InsertFailed | Inserted(command: InsertedCommand)

  datatype Network = Network(id: Option<int>, name: string)
  datatype NetworkWithDevices = NetworkWithDevices(network: Network, devices: set<Guid>)
  datatype NetworkPatch = NetworkPatch(body: string)

  /** The parsed `network/list` request; only `sortField` is examined by the handler. */
  datatype ListNetworkRequest = ListNetworkRequest(
    name: Option<string>,
    namePattern: Option<string>,
    sortField: Option<string>,
    sortOrder: Option<string>,
    take: Option<int>,
    skip: Option<int>)

  /**
   * `Constants.NULL_SUBSTITUTE`, the string unsubscribe puts in a one-element
   * guid set to mean "every subscription of this connection".
   */
  const NULL_SUBSTITUTE: string := "null"

  /** The one-element guid set that stands for "all". */
  const AllMarker: NullableSet := {Some(NULL_SUBSTITUTE)}

  /** One call a handler issues to a service, in the order issued. */
  datatype Call =
    | FindDevice(guid: Guid)
    | FindCommand(commandId: int, guid: Guid)
    | SubmitCommandSubscribe(devices: set<Guid>, names: Option<NullableSet>, timestamp: Option<int>)
    | SubmitCommandUnsubscribe(subscriptionId: Option<SubscriptionId>, guids: Option<NullableSet>)
    | InsertCommand(command: CommandWrapper, device: Device, user: Option<User>)
    | SubmitSubscribeOnUpdate(insertedId: int, deviceGuid: Guid)
    | UpdateCommand(saved: DeviceCommand, patch: Option<CommandWrapper>)
    | ListNetworks(request: ListNetworkRequest, principal: Principal)
    | GetNetwork(networkId: int)
    | CreateNetwork(network: Network)
    | UpdateNetwork(updateId: Option<int>, networkPatch: Option<NetworkPatch>)
    | DeleteNetwork(deleteId: Option<int>)
  {
    /** Lookups only read; every other call changes service state. */
    predicate IsMutation() {
      !(FindDevice? || FindCommand? || ListNetworks? || GetNetwork?)
    }
  }

  /** What a successful handler answers with. */
  datatype Response =
    | Empty
    | SubscriptionCreated(subscriptionId: SubscriptionId)
    | CommandInserted(commandId: int, timestamp: int, userId: Option<int>)
    | NetworksListed(networks: seq<Network>)
    | NetworkFound(found: NetworkWithDevices)
    | NetworkCreated(created: Network)

  /** One handler invocation: its answer and the service calls it issued. */
  datatype Step = Step(result: Result<Response, Failure>, calls: seq<Call>)

  /** The state-changing calls of a trace, in order. */
  function Mutations(calls: seq<Call>): (m: seq<Call>)
    ensures |m| <= |calls|
    ensures forall i :: 0 <= i < |m| ==> m[i].IsMutation() && m[i] in calls
    ensures (forall i :: 0 <= i < |calls| ==> !calls[i].IsMutation()) <==> m == []
  {
    if |calls| == 0 then []
    else (if calls[0].IsMutation() then [calls[0]] else []) + Mutations(calls[1..])
  }

  /** The mutations of a concatenated trace are those of each part, in order. */
  lemma {:induction false} MutationsAppend(a: seq<Call>, b: seq<Call>)
    ensures Mutations(a + b) == Mutations(a) + Mutations(b)
  {
    if |a| == 0 {
      assert a + b == b;
    } else {
      assert (a + b)[1..] == a[1..] + b;
      MutationsAppend(a[1..], b);
    }
  }
}
