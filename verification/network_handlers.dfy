/**
 * The request-decision layer of the network WebSocket handlers: the
 * sort-field check and the empty-networks short cut of `network/list`, and
 * the null and not-found checks of `network/get`, `network/insert`,
 * `network/update` and `network/delete`. Service answers are parameters.
 */
module NetworkHandlers {
  import opened Wrappers
  import opened Hive
  import opened Validation

  /** The sortable field names (the `ID` and `NAME` constants). */
  const ID: string := "id"
  const NAME: string := "name"

  /** Lower-cases an ASCII letter; every other character is left alone. */
  function LowerAscii(c: char): char {
    if 'A' <= c <= 'Z' then (c as int - 'A' as int + 'a' as int) as char else c
  }

  /** `String.toLowerCase`, on ASCII letters. */
  function ToLowerAscii(s: string): (r: string)
    ensures |r| == |s|
    ensures forall i :: 0 <= i < |s| ==> r[i] == LowerAscii(s[i])
  {
    seq(|s|, i requires 0 <= i < |s| => LowerAscii(s[i]))
  }

  /** `String.equalsIgnoreCase`, on ASCII letters. */
  predicate EqualsIgnoreCase(a: string, b: string) {
    |a| == |b| && forall i :: 0 <= i < |a| ==> LowerAscii(a[i]) == LowerAscii(b[i])
  }

  /** The sort-field guard of `network/list`, as the handler evaluates it. */
  predicate SortFieldAccepted(sortField: Option<string>) {
    var lowered := if sortField.Some? then Some(ToLowerAscii(sortField.value)) else None;
    lowered.None? || EqualsIgnoreCase(ID, lowered.value) || EqualsIgnoreCase(NAME, lowered.value)
  }

  /** Two strings are equal ignoring case exactly when their lower-cased forms are equal. */
  lemma EqualsIgnoreCaseIffLowerEqual(a: string, b: string)
    ensures EqualsIgnoreCase(a, b) <==> ToLowerAscii(a) == ToLowerAscii(b)
  {
  }

  /**
   * A sort field is accepted exactly when it is absent or its lower-case
   * form is one of the two sortable names; the check does not depend on
   * the case the caller wrote it in.
   */
  lemma SortFieldAcceptedIff(sortField: Option<string>)
    ensures SortFieldAccepted(sortField) <==>
              sortField.None? || ToLowerAscii(sortField.value) == ID || ToLowerAscii(sortField.value) == NAME
  {
  }

  /** Whether the caller can see no network at all. */
  predicate NoVisibleNetworks(p: Principal) {
    !p.allNetworksAvailable && (p.networkIds.None? || p.networkIds.value == {})
  }

  /**
   * `network/list`. `listed` is what `networkService.list` answers. An
   * unsortable field is refused before anything else; a caller with no
   * visible network gets an empty list without the service being asked.
   */
  function NetworkList(req: ListNetworkRequest, p: Principal, listed: seq<Network>): (r: Step)
    ensures !SortFieldAccepted(req.sortField) ==> r == Step(Failure(HiveError(BadRequest, InvalidRequestParameters)), [])
    ensures r.result.Success? <==> SortFieldAccepted(req.sortField)
    ensures r.result.Success? && NoVisibleNetworks(p) ==> r.result.value == NetworksListed([]) && r.calls == []
    ensures r.result.Success? && !NoVisibleNetworks(p) ==> r.result.value == NetworksListed(listed) && r.calls == [ListNetworks(req, p)]
    ensures Mutations(r.calls) == []
  {
    if !SortFieldAccepted(req.sortField) then Step(Failure(HiveError(BadRequest, InvalidRequestParameters)), [])
    else if NoVisibleNetworks(p) then Step(Success(NetworksListed([])), [])
    else Step(Success(NetworksListed(listed)), [ListNetworks(req, p)])
  }

  /**
   * `network/get`. `visible` holds what `networkService.getWithDevices`
   * finds for the caller. A null id is refused before any lookup.
   */
  function NetworkGet(id: Option<int>, visible: map<int, NetworkWithDevices>): (r: Step)
    ensures id.None? ==> r == Step(Failure(HiveError(BadRequest, NetworkIdRequired)), [])
    ensures id.Some? ==> r.calls == [GetNetwork(id.value)]
    ensures id.Some? && id.value !in visible ==> r.result == Failure(HiveError(NotFound, NetworkNotFound(id)))
    ensures r.result.Success? <==> id.Some? && id.value in visible
    ensures r.result.Success? ==> r.result.value == NetworkFound(visible[id.value])
  {
    if id.None? then Step(Failure(HiveError(BadRequest, NetworkIdRequired)), [])
    else if id.value !in visible then Step(Failure(HiveError(NotFound, NetworkNotFound(id))), [GetNetwork(id.value)])
    else Step(Success(NetworkFound(visible[id.value])), [GetNetwork(id.value)])
  }

  /**
   * `network/insert`. `created` is what `networkService.create` answers.
   * A missing network is refused and nothing is created.
   */
  function NetworkInsert(network: Option<Network>, created: Network): (r: Step)
    ensures network.None? ==> r == Step(Failure(HiveError(BadRequest, NetworkRequired)), [])
    ensures r.result.Success? <==> network.Some?
    ensures r.result.Success? ==> r.result.value == NetworkCreated(created) && Mutations(r.calls) == [CreateNetwork(network.value)]
  {
    if network.None? then Step(Failure(HiveError(BadRequest, NetworkRequired)), [])
    else Step(Success(NetworkCreated(created)), [CreateNetwork(network.value)])
  }

  /** `network/update`: no guard; the update is passed on as received. */
  function NetworkUpdate(id: Option<int>, patch: Option<NetworkPatch>): (r: Step)
    ensures r.result == Success(Empty)
    ensures Mutations(r.calls) == [UpdateNetwork(id, patch)]
  {
    Step(Success(Empty), [UpdateNetwork(id, patch)])
  }

  /**
   * `network/delete`. `deleted` is what `networkService.delete` answers;
   * the delete is always attempted, and a `false` answer is "not found".
   */
  function NetworkDelete(id: Option<int>, deleted: bool): (r: Step)
    ensures Mutations(r.calls) == [DeleteNetwork(id)]
    ensures r.result.Success? <==> deleted
    ensures r.result.Success? ==> r.result.value == Empty
    ensures r.result.Failure? ==> r.result.error == HiveError(NotFound, NetworkNotFound(id))
  {
    if deleted then Step(Success(Empty), [DeleteNetwork(id)])
    else Step(Failure(HiveError(NotFound, NetworkNotFound(id))), [DeleteNetwork(id)])
  }

  /** The guards of `network/list` as a reference sequence (the short cut is not a failure). */
  function ListChecks(req: ListNetworkRequest): seq<Check> {
    [Check(SortFieldAccepted(req.sortField), HiveError(BadRequest, InvalidRequestParameters))]
  }

  /** The guards of `network/get` as a reference sequence. */
  function GetChecks(id: Option<int>, visible: map<int, NetworkWithDevices>): seq<Check> {
    [ Check(id.Some?, HiveError(BadRequest, NetworkIdRequired)),
      Check(id.Some? && id.value in visible, HiveError(NotFound, NetworkNotFound(id))) ]
  }

  /**
   * `network/list` and `network/get` report the failure of their first
   * failing guard, and succeed exactly when every guard passes.
   */
  lemma NetworkHandlersFollowChecks(req: ListNetworkRequest, p: Principal, listed: seq<Network>,
                                    id: Option<int>, visible: map<int, NetworkWithDevices>)
    ensures NetworkList(req, p, listed).result.Failure? <==> FirstFailure(ListChecks(req)).Some?
    ensures FirstFailure(ListChecks(req)).Some? ==> NetworkList(req, p, listed).result == Failure(FirstFailure(ListChecks(req)).value)
    ensures NetworkGet(id, visible).result.Failure? <==> FirstFailure(GetChecks(id, visible)).Some?
    ensures FirstFailure(GetChecks(id, visible)).Some? ==> NetworkGet(id, visible).result == Failure(FirstFailure(GetChecks(id, visible)).value)
  {
    var l := ListChecks(req);
    FirstFailureStep(l);
    assert l[1..] == [];
    var g := GetChecks(id, visible);
    FirstFailureStep(g);
    assert g[1..] == [g[1]];
    FirstFailureStep(g[1..]);
    assert g[1..][1..] == [];
  }

  /** The guard of `network/insert` as a reference sequence. */
  function InsertChecks(network: Option<Network>): seq<Check> {
    [Check(network.Some?, HiveError(BadRequest, NetworkRequired))]
  }

  /**
   * The state-changing network handlers against the reference: insert
   * reports its first failing guard and creates exactly when its guards
   * pass; update has no guard and never fails; delete is the one handler
   * whose failure comes after its state change.
   */
  lemma NetworkMutatorsFollowChecks(network: Option<Network>, created: Network, id: Option<int>,
                                    patch: Option<NetworkPatch>, deleted: bool)
    ensures NetworkInsert(network, created).result.Failure? <==> FirstFailure(InsertChecks(network)).Some?
    ensures FirstFailure(InsertChecks(network)).Some? ==>
              NetworkInsert(network, created).result == Failure(FirstFailure(InsertChecks(network)).value)
    ensures Mutations(NetworkInsert(network, created).calls) == [] <==> FirstFailure(InsertChecks(network)).Some?
    ensures FirstFailure([]).None? && NetworkUpdate(id, patch).result.Success?
    ensures NetworkDelete(id, deleted).result.Failure? ==> Mutations(NetworkDelete(id, deleted).calls) != []
    ensures NetworkDelete(id, deleted).result.Failure? <==> !deleted
  {
  }

  /** The sort-field guard precedes the empty-networks short cut, whoever the caller is. */
  lemma SortFieldCheckedFirst(req: ListNetworkRequest, p1: Principal, p2: Principal, listed1: seq<Network>, listed2: seq<Network>)
    requires !SortFieldAccepted(req.sortField)
    ensures NetworkList(req, p1, listed1) == NetworkList(req, p2, listed2)
  {
  }
}
