/**
 * The request-decision layer of the command WebSocket handlers:
 * device-scope resolution and the per-connection subscription set for
 * `command/subscribe` and `command/unsubscribe`, and the ordered guards of
 * `command/insert` and `command/update`. Service answers are parameters:
 * `devices` holds what the permission-checked device lookup finds for the
 * caller, `commands` what the command store finds by (id, device guid).
 */
module CommandHandlers {
  import opened Wrappers
  import opened Hive
  import opened Validation

  // ---------------------------------------------------------------------
  // command/subscribe
  // ---------------------------------------------------------------------

  /** The non-null members of a JSON string array. */
  function NonNull(s: NullableSet): (r: set<string>)
    ensures forall g :: g in r <==> Some(g) in s
  {
    set o | o in s && o.Some? :: o.value
  }

  /**
   * Resolves the devices a subscription targets from the request's single
   * `deviceGuid` and its `deviceGuids` array. `Success(None)` is "no target".
   */
  function PrepareActualList(deviceIdSet: Option<NullableSet>, deviceId: Option<Guid>): (r: Result<Option<set<Guid>>, Failure>)
    ensures r == Success(None) <==> deviceId.None? && deviceIdSet.None?
    ensures r.Failure? <==> deviceId.Some? && deviceIdSet.Some?
    ensures r.Failure? ==> r.error == HiveError(BadRequest, InvalidRequestParameters)
    ensures deviceId.None? && deviceIdSet.Some? ==>
              r.Success? && r.value.Some? && forall g :: g in r.value.value <==> Some(g) in deviceIdSet.value
    ensures deviceId.Some? && deviceIdSet.None? ==> r == Success(Some({deviceId.value}))
  {
    if deviceId.None? && deviceIdSet.None? then Success(None)
    else if deviceIdSet.Some? && deviceId.None? then Success(Some(NonNull(deviceIdSet.value)))
    else if deviceIdSet.None? then Success(Some({deviceId.value}))
    else Failure(HiveError(BadRequest, InvalidRequestParameters))
  }

  /** Every non-null device guid a subscribe request names, in either field. */
  function NamedDevices(deviceIdSet: Option<NullableSet>, deviceId: Option<Guid>): set<Guid>
  {
    (if deviceIdSet.Some? then NonNull(deviceIdSet.value) else {})
    + (if deviceId.Some? then {deviceId.value} else {})
  }

  /**
   * Whenever scope resolution yields a device set, it is exactly the set of
   * devices the request names; it never yields a set when both fields are given.
   */
  lemma PrepareActualListTargetsNamedDevices(deviceIdSet: Option<NullableSet>, deviceId: Option<Guid>)
    ensures PrepareActualList(deviceIdSet, deviceId).Success? && PrepareActualList(deviceIdSet, deviceId).value.Some? ==>
              PrepareActualList(deviceIdSet, deviceId).value.value == NamedDevices(deviceIdSet, deviceId)
    ensures PrepareActualList(deviceIdSet, deviceId) == Success(None) ==> NamedDevices(deviceIdSet, deviceId) == {}
  {
  }

  datatype SubscribeRequest = SubscribeRequest(
    timestamp: Option<int>,
    deviceGuid: Option<Guid>,
    names: Option<NullableSet>,
    deviceGuids: Option<NullableSet>)

  /**
   * An element of the connection's `commandSubscriptions` attribute. The set
   * is raw in the source: subscribe adds id strings, while unsubscribe hands
   * it an `Optional<String>`, which never equals a string.
   */
  datatype SessionEntry = StringEntry(id: SubscriptionId) | OptionalEntry(wrapped: Option<SubscriptionId>)

  /** A handler step together with the connection's subscription set after it. */
  datatype SessionStep = SessionStep(step: Step, session: set<SessionEntry>)

  /** A subscription set as subscribe builds it: id strings only. */
  predicate StringsOnly(session: set<SessionEntry>) {
    forall e :: e in session ==> e.StringEntry?
  }

  /** Whether subscribe accepts the request's device scope. */
  predicate SubscribeScopeValid(req: SubscribeRequest) {
    || (req.deviceGuid.Some? && req.deviceGuids.None?)
    || (req.deviceGuid.None? && req.deviceGuids.Some? && NonNull(req.deviceGuids.value) != {})
  }

  /**
   * `command/subscribe`. `issued` is the subscription id the command service
   * allocates. The scope must resolve to a non-empty device set; then exactly
   * one subscription is submitted, its id is added to the connection's set
   * and returned.
   */
  function CommandSubscribe(req: SubscribeRequest, session: set<SessionEntry>, issued: SubscriptionId): (r: SessionStep)
    ensures r.step.result.Success? <==> SubscribeScopeValid(req)
    ensures req.deviceGuid.None? && req.deviceGuids.None? ==> r.step.result == Failure(IllegalArgument)
    ensures req.deviceGuid.Some? && req.deviceGuids.Some? ==>
              r.step.result == Failure(HiveError(BadRequest, InvalidRequestParameters))
    ensures req.deviceGuid.None? && req.deviceGuids.Some? && NonNull(req.deviceGuids.value) == {} ==>
              r.step.result == Failure(IllegalArgument)
    ensures r.step.result.Failure? ==> r.step.calls == [] && r.session == session
    ensures r.step.result.Success? ==>
              && r.step.result.value == SubscriptionCreated(issued)
              && r.step.calls == [SubmitCommandSubscribe(NamedDevices(req.deviceGuids, req.deviceGuid), req.names, req.timestamp)]
              && StringEntry(issued) in r.session
              && forall e :: e != StringEntry(issued) ==> (e in r.session <==> e in session)
  {
    match PrepareActualList(req.deviceGuids, req.deviceGuid)
    case Failure(e) => SessionStep(Step(Failure(e), []), session)
    case Success(scope) =>
      if scope.None? || scope.value == {} then SessionStep(Step(Failure(IllegalArgument), []), session)
      else
        PrepareActualListTargetsNamedDevices(req.deviceGuids, req.deviceGuid);
        var call := SubmitCommandSubscribe(scope.value, req.names, req.timestamp);
        SessionStep(Step(Success(SubscriptionCreated(issued)), [call]), session + {StringEntry(issued)})
  }

  // ---------------------------------------------------------------------
  // command/unsubscribe
  // ---------------------------------------------------------------------

  datatype UnsubscribeRequest = UnsubscribeRequest(subscriptionId: Option<SubscriptionId>, deviceGuids: Option<NullableSet>)

  /** The decision table that picks the arguments of `submitCommandUnsubscribe`. */
  function UnsubscribeArguments(req: UnsubscribeRequest): (r: Call)
    ensures r.SubmitCommandUnsubscribe?
    ensures r.subscriptionId == req.subscriptionId
    ensures req.subscriptionId.None? && req.deviceGuids.None? ==> r.guids == Some(AllMarker)
    ensures req.deviceGuids.Some? ==> r.guids == req.deviceGuids
    ensures r.guids.None? <==> req.subscriptionId.Some? && req.deviceGuids.None?
    ensures r.subscriptionId.Some? || r.guids.Some?
  {
    if req.subscriptionId.None? && req.deviceGuids.None? then
      SubmitCommandUnsubscribe(None, Some(AllMarker))
    else if req.subscriptionId.Some? then
      SubmitCommandUnsubscribe(req.subscriptionId, req.deviceGuids)
    else
      SubmitCommandUnsubscribe(None, req.deviceGuids)
  }

  /**
   * Two requests lead to the same unsubscribe call exactly when they are
   * equal, or when neither names a subscription and one names no guids while
   * the other names just the `NULL_SUBSTITUTE` string: the service cannot tell
   * those two apart.
   */
  lemma UnsubscribeArgumentsCollide(a: UnsubscribeRequest, b: UnsubscribeRequest)
    ensures UnsubscribeArguments(a) == UnsubscribeArguments(b) <==>
              || a == b
              || (&& a.subscriptionId.None? && b.subscriptionId.None?
                  && {a.deviceGuids, b.deviceGuids} == {None, Some(AllMarker)})
  {
  }

  /** The collision on concrete requests: an empty request and one naming only the marker string. */
  lemma EmptyUnsubscribeLooksLikeMarker()
    ensures UnsubscribeArguments(UnsubscribeRequest(None, None))
         == UnsubscribeArguments(UnsubscribeRequest(None, Some({Some(NULL_SUBSTITUTE)})))
  {
  }

  /**
   * `command/unsubscribe`, as written: exactly one unsubscribe is submitted,
   * and the removal from the connection's set targets the `Optional`
   * wrapper, so a set of id strings comes back unchanged.
   */
  function CommandUnsubscribe(req: UnsubscribeRequest, session: set<SessionEntry>): (r: SessionStep)
    ensures r.step.result == Success(Empty)
    ensures r.step.calls == [UnsubscribeArguments(req)]
    ensures StringsOnly(session) ==> r.session == session
    ensures r.session <= session
  {
    SessionStep(Step(Success(Empty), [UnsubscribeArguments(req)]), session - {OptionalEntry(req.subscriptionId)})
  }

  /**
   * `command/unsubscribe` as evidently intended: the id string itself is
   * removed from the connection's set, and nothing else is.
   */
  function CommandUnsubscribeCorrected(req: UnsubscribeRequest, session: set<SessionEntry>): (r: SessionStep)
    ensures r.step.result == Success(Empty)
    ensures r.step.calls == [UnsubscribeArguments(req)]
    ensures req.subscriptionId.Some? ==> StringEntry(req.subscriptionId.value) !in r.session
    ensures forall e :: e in r.session <==> e in session && (req.subscriptionId.None? || e != StringEntry(req.subscriptionId.value))
  {
    var removed := if req.subscriptionId.Some? then {StringEntry(req.subscriptionId.value)} else {};
    SessionStep(Step(Success(Empty), [UnsubscribeArguments(req)]), session - removed)
  }

  // ---------------------------------------------------------------------
  // command/insert
  // ---------------------------------------------------------------------

  datatype InsertRequest = InsertRequest(deviceGuid: Option<Guid>, command: Option<CommandWrapper>)

  /** The user a new command is attributed to: the principal's, else its access key's. */
  function ActingUser(p: Principal): (r: Result<Option<User>, Failure>)
    ensures r.Failure? <==> p.user.None? && p.key.None?
    ensures r.Success? ==> r.value == if p.user.Some? then p.user else p.key.value.user
  {
    if p.user.Some? then Success(p.user)
    else if p.key.Some? then Success(p.key.value.user)
    else Failure(NullDereference)
  }

  /** The arguments `commandService.insert` is called with once every guard passes. */
  datatype InsertPlan = InsertPlan(command: CommandWrapper, device: Device, user: Option<User>)

  /** The guards of `command/insert`, in the order the handler evaluates them. */
  function InsertGuards(req: InsertRequest, p: Principal, devices: map<Guid, Device>): (r: Result<InsertPlan, Failure>)
    ensures req.deviceGuid.None? ==> r == Failure(HiveError(BadRequest, DeviceGuidRequired))
    ensures req.deviceGuid.Some? && req.deviceGuid.value !in devices ==>
              r == Failure(HiveError(NotFound, DeviceNotFound(GuidArg(req.deviceGuid.value))))
    ensures req.deviceGuid.Some? && req.deviceGuid.value in devices && req.command.None? ==>
              r == Failure(HiveError(BadRequest, EmptyCommand))
    ensures r.Success? <==> req.deviceGuid.Some? && req.deviceGuid.value in devices && req.command.Some? && ActingUser(p).Success?
    ensures r.Success? ==> r.value == InsertPlan(req.command.value, devices[req.deviceGuid.value], ActingUser(p).value)
  {
    if req.deviceGuid.None? then Failure(HiveError(BadRequest, DeviceGuidRequired))
    else if req.deviceGuid.value !in devices then Failure(HiveError(NotFound, DeviceNotFound(GuidArg(req.deviceGuid.value))))
    else if req.command.None? then Failure(HiveError(BadRequest, EmptyCommand))
    else match ActingUser(p)
      case Failure(e) => Failure(e)
      case Success(user) => Success(InsertPlan(req.command.value, devices[req.deviceGuid.value], user))
  }

  /** The device lookup `command/insert` issues once it has a guid. */
  function InsertLookups(req: InsertRequest): seq<Call> {
    if req.deviceGuid.Some? then [FindDevice(req.deviceGuid.value)] else []
  }

  /** Registers the update watch for a freshly inserted command; a null id is refused. */
  function CommandUpdateSubscribeAction(commandId: Option<int>, guid: Guid): (r: Result<Call, Failure>)
    ensures r.Failure? <==> commandId.None?
    ensures r.Failure? ==> r.error == HiveError(BadRequest, ColumnCannotBeNull("commandId"))
    ensures r.Success? ==> r.value.SubmitSubscribeOnUpdate? && r.value.insertedId == commandId.value && r.value.deviceGuid == guid
  {
    if commandId.None? then Failure(HiveError(BadRequest, ColumnCannotBeNull("commandId")))
    else Success(SubmitSubscribeOnUpdate(commandId.value, guid))
  }

  /** The `thenApply` stage run on the inserted command. */
  function ThenApply(cmd: InsertedCommand, device: Device): (r: Step)
    ensures r.result.Success? <==> cmd.id.Some?
    ensures r.result.Success? ==>
              && r.result.value == CommandInserted(cmd.id.value, cmd.timestamp, cmd.userId)
              && r.calls == [SubmitSubscribeOnUpdate(cmd.id.value, device.guid)]
    ensures r.result.Failure? ==> r.calls == [] && r.result.error == HiveError(BadRequest, ColumnCannotBeNull("commandId"))
  {
    match CommandUpdateSubscribeAction(cmd.id, device.guid)
    case Failure(e) => Step(Failure(e), [])
    case Success(call) => Step(Success(CommandInserted(cmd.id.value, cmd.timestamp, cmd.userId)), [call])
  }

  /** The `exceptionally` stage: whatever failed is rethrown as an internal error. */
  function Exceptionally(r: Result<Response, Failure>): (e: Result<Response, Failure>)
    ensures r.Success? ==> e == r
    ensures r.Failure? ==> e == Failure(HiveError(InternalServerError, InternalError))
  {
    if r.Success? then r else Failure(HiveError(InternalServerError, InternalError))
  }

  /**
   * `command/insert`, as written. A guard failure issues no state change;
   * once the guards pass the command is inserted, and any failure after
   * that, a null command id included, surfaces as an internal error.
   */
  function CommandInsert(req: InsertRequest, p: Principal, devices: map<Guid, Device>, inserted: InsertOutcome): (r: Step)
    ensures InsertGuards(req, p, devices).Failure? ==>
              r.result == Failure(InsertGuards(req, p, devices).error) && Mutations(r.calls) == []
    ensures r.result.Success? <==> InsertGuards(req, p, devices).Success? && inserted.Inserted? && inserted.command.id.Some?
    ensures InsertGuards(req, p, devices).Success? && (inserted.InsertFailed? || inserted.command.id.None?) ==>
              r.result == Failure(HiveError(InternalServerError, InternalError))
    ensures r.result.Success? ==>
              var plan := InsertGuards(req, p, devices).value;
              var id := inserted.command.id.value;
              && r.result.value == CommandInserted(id, inserted.command.timestamp, inserted.command.userId)
              && Mutations(r.calls) == [InsertCommand(plan.command, plan.device, plan.user), SubmitSubscribeOnUpdate(id, plan.device.guid)]
  {
    match InsertGuards(req, p, devices)
    case Failure(e) => Step(Failure(e), InsertLookups(req))
    case Success(plan) =>
      var issued := InsertLookups(req) + [InsertCommand(plan.command, plan.device, plan.user)];
      match inserted
      case InsertFailed => Step(Failure(HiveError(InternalServerError, InternalError)), issued)
      case Inserted(cmd) =>
        var applied := ThenApply(cmd, plan.device);
        MutationsAppend(InsertLookups(req), [InsertCommand(plan.command, plan.device, plan.user)]);
        MutationsAppend(issued, applied.calls);
        Step(Exceptionally(applied.result), issued + applied.calls)
  }

  /**
   * `command/insert` as evidently intended: an insert failure is an internal
   * error, while a null command id keeps the bad-request error raised for it.
   */
  function CommandInsertCorrected(req: InsertRequest, p: Principal, devices: map<Guid, Device>, inserted: InsertOutcome): (r: Step)
    ensures InsertGuards(req, p, devices).Failure? ==>
              r.result == Failure(InsertGuards(req, p, devices).error) && Mutations(r.calls) == []
    ensures r.result.Success? <==> InsertGuards(req, p, devices).Success? && inserted.Inserted? && inserted.command.id.Some?
    ensures InsertGuards(req, p, devices).Success? && inserted.InsertFailed? ==>
              r.result == Failure(HiveError(InternalServerError, InternalError))
    ensures InsertGuards(req, p, devices).Success? && inserted.Inserted? && inserted.command.id.None? ==>
              r.result == Failure(HiveError(BadRequest, ColumnCannotBeNull("commandId")))
    ensures r.result.Success? ==> r == CommandInsert(req, p, devices, inserted)
  {
    match InsertGuards(req, p, devices)
    case Failure(e) => Step(Failure(e), InsertLookups(req))
    case Success(plan) =>
      var issued := InsertLookups(req) + [InsertCommand(plan.command, plan.device, plan.user)];
      match inserted
      case InsertFailed => Step(Failure(HiveError(InternalServerError, InternalError)), issued)
      case Inserted(cmd) =>
        var applied := ThenApply(cmd, plan.device);
        Step(applied.result, issued + applied.calls)
  }

  /**
   * The discrepancy on a concrete answer: when the store hands back an
   * inserted command without an id, the handler as written reports an
   * internal error, while the corrected one keeps the bad request raised
   * for the null id. Both have already issued the insert.
   */
  lemma InsertWithNullIdDiscrepancy(req: InsertRequest, p: Principal, devices: map<Guid, Device>, timestamp: int, userId: Option<int>)
    requires InsertGuards(req, p, devices).Success?
    ensures CommandInsert(req, p, devices, Inserted(InsertedCommand(None, timestamp, userId))).result
            == Failure(HiveError(InternalServerError, InternalError))
    ensures CommandInsertCorrected(req, p, devices, Inserted(InsertedCommand(None, timestamp, userId))).result
            == Failure(HiveError(BadRequest, ColumnCannotBeNull("commandId")))
    ensures Mutations(CommandInsert(req, p, devices, Inserted(InsertedCommand(None, timestamp, userId))).calls) != []
  {
  }

  // ---------------------------------------------------------------------
  // command/update
  // ---------------------------------------------------------------------

  datatype UpdateRequest = UpdateRequest(deviceGuid: Option<Guid>, commandId: Option<int>, command: Option<CommandWrapper>)

  /** The device guid an update targets: the request's, else the calling device's own. */
  function UpdateTarget(req: UpdateRequest, p: Principal): (g: Option<Guid>)
    ensures g.None? <==> req.deviceGuid.None? && p.device.None?
    ensures req.deviceGuid.Some? ==> g == req.deviceGuid
    ensures req.deviceGuid.None? && p.device.Some? ==> g == Some(p.device.value.guid)
  {
    if req.deviceGuid.Some? then req.deviceGuid
    else if p.device.Some? then Some(p.device.value.guid)
    else None
  }

  /**
   * `command/update`: the guid (after falling back to the calling device),
   * then the command id, then the device, then the stored command are
   * checked in that order; only when all are present is the stored command
   * updated, exactly once. Update never creates a command.
   */
  function CommandUpdate(req: UpdateRequest, p: Principal, devices: map<Guid, Device>, commands: map<(int, Guid), DeviceCommand>): (r: Step)
    ensures UpdateTarget(req, p).None? ==> r == Step(Failure(HiveError(BadRequest, DeviceGuidRequired)), [])
    ensures UpdateTarget(req, p).Some? && req.commandId.None? ==> r == Step(Failure(HiveError(BadRequest, CommandIdRequired)), [])
    ensures UpdateTarget(req, p).Some? && req.commandId.Some? && UpdateTarget(req, p).value !in devices ==>
              r.result == Failure(HiveError(NotFound, DeviceNotFound(IdArg(req.commandId.value))))
    ensures UpdateTarget(req, p).Some? && req.commandId.Some? && UpdateTarget(req, p).value in devices
            && (req.commandId.value, UpdateTarget(req, p).value) !in commands ==>
              r.result == Failure(HiveError(NotFound, CommandNotFound(req.commandId.value)))
    ensures r.result.Success? <==>
              && UpdateTarget(req, p).Some? && req.commandId.Some? && UpdateTarget(req, p).value in devices
              && (req.commandId.value, UpdateTarget(req, p).value) in commands
    ensures r.result.Failure? ==> Mutations(r.calls) == []
    ensures r.result.Success? ==>
              && r.result.value == Empty
              && Mutations(r.calls) == [UpdateCommand(commands[(req.commandId.value, UpdateTarget(req, p).value)], req.command)]
  {
    var target := UpdateTarget(req, p);
    if target.None? then Step(Failure(HiveError(BadRequest, DeviceGuidRequired)), [])
    else if req.commandId.None? then Step(Failure(HiveError(BadRequest, CommandIdRequired)), [])
    else
      var guid := target.value;
      var id := req.commandId.value;
      var findDevice := [FindDevice(guid)];
      if guid !in devices then Step(Failure(HiveError(NotFound, DeviceNotFound(IdArg(id)))), findDevice)
      else
        var lookups := findDevice + [FindCommand(id, guid)];
        if (id, guid) !in commands then Step(Failure(HiveError(NotFound, CommandNotFound(id))), lookups)
        else Step(Success(Empty), lookups + [UpdateCommand(commands[(id, guid)], req.command)])
  }

  // ---------------------------------------------------------------------
  // The insert and update guards against the reference guard sequence
  // ---------------------------------------------------------------------

  /** The guards of `command/insert` as a reference sequence. */
  function InsertChecks(req: InsertRequest, p: Principal, devices: map<Guid, Device>): seq<Check> {
    [ Check(req.deviceGuid.Some?, HiveError(BadRequest, DeviceGuidRequired)),
      Check(req.deviceGuid.Some? && req.deviceGuid.value in devices,
            HiveError(NotFound, DeviceNotFound(GuidArg(req.deviceGuid.GetOr(""))))),
      Check(req.command.Some?, HiveError(BadRequest, EmptyCommand)),
      Check(ActingUser(p).Success?, NullDereference) ]
  }

  /**
   * `command/insert` reports the failure of its first failing guard, and
   * issues a state-changing call exactly when every guard passes.
   */
  lemma CommandInsertFollowsChecks(req: InsertRequest, p: Principal, devices: map<Guid, Device>, inserted: InsertOutcome)
    ensures FirstFailure(InsertChecks(req, p, devices)).Some? ==>
              CommandInsert(req, p, devices, inserted).result == Failure(FirstFailure(InsertChecks(req, p, devices)).value)
    ensures Mutations(CommandInsert(req, p, devices, inserted).calls) == [] <==> FirstFailure(InsertChecks(req, p, devices)).Some?
  {
    var checks := InsertChecks(req, p, devices);
    FirstFailureOfFour(checks[0], checks[1], checks[2], checks[3]);
    assert checks == [checks[0], checks[1], checks[2], checks[3]];
  }

  /** The guards of `command/update` as a reference sequence. */
  function UpdateChecks(req: UpdateRequest, p: Principal, devices: map<Guid, Device>, commands: map<(int, Guid), DeviceCommand>): seq<Check> {
    var target := UpdateTarget(req, p);
    var id := req.commandId.GetOr(0);
    [ Check(target.Some?, HiveError(BadRequest, DeviceGuidRequired)),
      Check(req.commandId.Some?, HiveError(BadRequest, CommandIdRequired)),
      Check(target.Some? && target.value in devices, HiveError(NotFound, DeviceNotFound(IdArg(id)))),
      Check(target.Some? && (id, target.value) in commands, HiveError(NotFound, CommandNotFound(id))) ]
  }

  /**
   * `command/update` reports the failure of its first failing guard,
   * answers with an empty response when all pass, and updates exactly then.
   */
  lemma CommandUpdateFollowsChecks(req: UpdateRequest, p: Principal, devices: map<Guid, Device>, commands: map<(int, Guid), DeviceCommand>)
    ensures CommandUpdate(req, p, devices, commands).result ==
              match FirstFailure(UpdateChecks(req, p, devices, commands))
              case Some(f) => Failure(f)
              case None => Success(Empty)
    ensures Mutations(CommandUpdate(req, p, devices, commands).calls) == [] <==>
              FirstFailure(UpdateChecks(req, p, devices, commands)).Some?
  {
    var checks := UpdateChecks(req, p, devices, commands);
    FirstFailureOfFour(checks[0], checks[1], checks[2], checks[3]);
    assert checks == [checks[0], checks[1], checks[2], checks[3]];
  }
}
