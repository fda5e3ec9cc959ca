/**
 * The connection's subscription set across a sequence of subscribe and
 * unsubscribe requests. As written, unsubscribe never removes anything, so
 * the set is exactly the initial one plus every id ever issued; with the
 * evident intent restored, an unsubscribed id is gone.
 */
module SubscriptionSession {
  import opened Wrappers
  import opened Hive
  import opened CommandHandlers

  /** A request on one connection that touches its subscription set. */
  datatype SessionRequest =
    | Subscribe(subscribe: SubscribeRequest, issued: SubscriptionId)
    | Unsubscribe(unsubscribe: UnsubscribeRequest)

  /** The set after one request, as the source handles it. */
  function Apply(session: set<SessionEntry>, req: SessionRequest): set<SessionEntry> {
    match req
    case Subscribe(s, id) => CommandSubscribe(s, session, id).session
    case Unsubscribe(u) => CommandUnsubscribe(u, session).session
  }

  /** The set after one request, with unsubscribe corrected. */
  function ApplyCorrected(session: set<SessionEntry>, req: SessionRequest): set<SessionEntry> {
    match req
    case Subscribe(s, id) => CommandSubscribe(s, session, id).session
    case Unsubscribe(u) => CommandUnsubscribeCorrected(u, session).session
  }

  /** The set after handling `requests` in order, as the source does. */
  function Replay(session: set<SessionEntry>, requests: seq<SessionRequest>): set<SessionEntry>
    decreases |requests|
  {
    if |requests| == 0 then session else Replay(Apply(session, requests[0]), requests[1..])
  }

  /** The set after handling `requests` in order, with unsubscribe corrected. */
  function ReplayCorrected(session: set<SessionEntry>, requests: seq<SessionRequest>): set<SessionEntry>
    decreases |requests|
  {
    if |requests| == 0 then session else ReplayCorrected(ApplyCorrected(session, requests[0]), requests[1..])
  }

  /** The ids issued by the subscribe requests that succeed. */
  function Issued(requests: seq<SessionRequest>): set<SubscriptionId>
    decreases |requests|
  {
    if |requests| == 0 then {}
    else
      (if requests[0].Subscribe? && SubscribeScopeValid(requests[0].subscribe) then {requests[0].issued} else {})
      + Issued(requests[1..])
  }

  /** The string entries for a set of ids. */
  function Entries(ids: set<SubscriptionId>): set<SessionEntry> {
    set id | id in ids :: StringEntry(id)
  }

  /**
   * As written, the set after any request sequence is the initial set plus
   * every id issued along the way: unsubscribe removes nothing.
   */
  lemma {:induction false} ReplayOnlyGrows(session: set<SessionEntry>, requests: seq<SessionRequest>)
    requires StringsOnly(session)
    ensures StringsOnly(Replay(session, requests))
    ensures Replay(session, requests) == session + Entries(Issued(requests))
    decreases |requests|
  {
    if |requests| > 0 {
      var next := Apply(session, requests[0]);
      var first := if requests[0].Subscribe? && SubscribeScopeValid(requests[0].subscribe) then {requests[0].issued} else {};
      assert next == session + Entries(first);
      ReplayOnlyGrows(next, requests[1..]);
      assert Entries(first + Issued(requests[1..])) == Entries(first) + Entries(Issued(requests[1..]));
    }
  }

  /**
   * With unsubscribe corrected, every entry left in the set was there
   * initially or issued along the way, and the set never outgrows the
   * as-written one.
   */
  lemma {:induction false} ReplayCorrectedWithinReplay(session: set<SessionEntry>, requests: seq<SessionRequest>)
    requires StringsOnly(session)
    ensures ReplayCorrected(session, requests) <= Replay(session, requests)
    ensures ReplayCorrected(session, requests) <= session + Entries(Issued(requests))
    ensures StringsOnly(ReplayCorrected(session, requests))
    decreases |requests|
  {
    ReplayOnlyGrows(session, requests);
    if |requests| > 0 {
      ReplayCorrectedWithinReplay(ApplyCorrected(session, requests[0]), requests[1..]);
      ReplayMonotone(ApplyCorrected(session, requests[0]), Apply(session, requests[0]), requests[1..]);
    }
  }

  /** Replay preserves inclusion between two starting sets. */
  lemma {:induction false} ReplayMonotone(small: set<SessionEntry>, large: set<SessionEntry>, requests: seq<SessionRequest>)
    requires small <= large
    ensures Replay(small, requests) <= Replay(large, requests)
    decreases |requests|
  {
    if |requests| > 0 {
      ReplayMonotone(Apply(small, requests[0]), Apply(large, requests[0]), requests[1..]);
    }
  }

  /**
   * The discrepancy on a concrete pair of requests: subscribing to one
   * device and then unsubscribing the issued id leaves that id in the set
   * as written, while the corrected handler restores the initial set.
   */
  lemma SubscribeThenUnsubscribe(session: set<SessionEntry>, device: Guid, id: SubscriptionId)
    requires StringsOnly(session) && StringEntry(id) !in session
    ensures StringEntry(id) in Replay(session, [Subscribe(SubscribeRequest(None, Some(device), None, None), id),
                                                Unsubscribe(UnsubscribeRequest(Some(id), None))])
    ensures ReplayCorrected(session, [Subscribe(SubscribeRequest(None, Some(device), None, None), id),
                                      Unsubscribe(UnsubscribeRequest(Some(id), None))]) == session
  {
    var rs := [Subscribe(SubscribeRequest(None, Some(device), None, None), id), Unsubscribe(UnsubscribeRequest(Some(id), None))];
    var added := session + {StringEntry(id)};
    assert Apply(session, rs[0]) == added;
    assert rs[1..] == [rs[1]];
    assert Replay(added, rs[1..]) == Replay(Apply(added, rs[1]), []);
    assert ApplyCorrected(session, rs[0]) == added;
    assert ReplayCorrected(added, rs[1..]) == ReplayCorrected(ApplyCorrected(added, rs[1]), []);
    assert ApplyCorrected(added, rs[1]) == session;
  }
}
