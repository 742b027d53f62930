/**
  The two reorder endpoints, `POST /api/top10/reorder` and `POST /api/dashboard/reorder`.
  Both validate the body and the ranks; the dashboard one also checks that the caller
  owns the list and that every id is one of the list's items. The `reorder_top10`
  procedure itself is not visible, so an endpoint returns the call it makes (if any)
  together with its reply, and the procedure's error is an input.
*/
module Reorder {
  import opened Wrappers
  import Top10Store

  /** A JSON `rank`: an integer, or anything `Number.isInteger` rejects. */
  datatype RankValue = Integer(n: int) | NonInteger

  datatype Entry = Entry(id: string, rank: RankValue)

  /** The parsed body; `None` for a missing `listId` or a non-array `entries`. */
  datatype Body = Body(listId: Option<string>, entries: Option<seq<Entry>>)

  /** The arguments of one `reorder_top10` call. */
  datatype RpcCall = RpcCall(listId: string, ids: seq<string>, ranks: seq<int>)

  /** `{ ok: true }` (200) or `{ error }` with its status. */
  datatype Reply = Done | Failure(status: int, message: string)

  /** An endpoint's reply and the procedure call it made before replying. */
  datatype Outcome = Outcome(reply: Reply, call: Option<RpcCall>)

  const InvalidBodyMessage: string := "Invalid body"
  const BadRanksMessage: string := "Ranks must be integers 1..10 with no duplicates"
  const ForbiddenMessage: string := "forbidden"
  const NotMemberMessage: string := "item does not belong to list"

  /** `!listId || !Array.isArray(entries) || entries.length === 0` fails. */
  predicate BodyOk(b: Body) {
    b.listId.Some? && b.listId.value != "" && b.entries.Some? && |b.entries.value| > 0
  }

  function Ids(entries: seq<Entry>): (ids: seq<string>)
    ensures |ids| == |entries| && forall i :: 0 <= i < |entries| ==> ids[i] == entries[i].id
  {
    seq(|entries|, i requires 0 <= i < |entries| => entries[i].id)
  }

  function Ranks(entries: seq<Entry>): (ranks: seq<RankValue>)
    ensures |ranks| == |entries| && forall i :: 0 <= i < |entries| ==> ranks[i] == entries[i].rank
  {
    seq(|entries|, i requires 0 <= i < |entries| => entries[i].rank)
  }

  /** `Number.isInteger(r) && 1 <= r <= 10` */
  predicate InRange(r: RankValue) {
    r.Integer? && 1 <= r.n <= 10
  }

  /** `!outOfRange && rankSet.size === ranks.length`, as the endpoints write it. */
  predicate RanksOk(ranks: seq<RankValue>) {
    (forall i :: 0 <= i < |ranks| ==> InRange(ranks[i]))
    && |set r | r in ranks| == |ranks|
  }

  /** No value occurs twice. */
  predicate Distinct<T(==)>(s: seq<T>) {
    forall i, j :: 0 <= i < j < |s| ==> s[i] != s[j]
  }

  /** A `Set` built from a sequence is as large as the sequence exactly when it has no duplicates. */
  lemma {:induction false} SetSizeDetectsDuplicates<T>(s: seq<T>)
    ensures |set x | x in s| <= |s|
    ensures |set x | x in s| == |s| <==> Distinct(s)
  {
    if s != [] {
      var rest := s[1..];
      SetSizeDetectsDuplicates(rest);
      var tail := set x | x in rest;
      assert (set x | x in s) == {s[0]} + tail;
      if s[0] in rest {
        assert (set x | x in s) == tail;
        var k :| 0 <= k < |rest| && rest[k] == s[0];
        assert s[0] == s[k + 1];
      } else {
        assert |set x | x in s| == |tail| + 1;
        if Distinct(rest) {
          forall i, j | 0 <= i < j < |s|
            ensures s[i] != s[j]
          {
            if i > 0 {
              assert s[i] == rest[i - 1] && s[j] == rest[j - 1];
            } else {
              assert s[j] == rest[j - 1];
            }
          }
        } else {
          var i, j :| 0 <= i < j < |rest| && rest[i] == rest[j];
          assert s[i + 1] == s[j + 1];
        }
      }
    }
  }

  /** The endpoints' rank rule means: every rank is an integer in 1..10 and no two are equal. */
  lemma RanksOkMeans(ranks: seq<RankValue>)
    ensures RanksOk(ranks) <==> (forall i :: 0 <= i < |ranks| ==> InRange(ranks[i])) && Distinct(ranks)
  {
    SetSizeDetectsDuplicates(ranks);
  }

  /** Accepted ranks are distinct values in 1..10, so there are at most ten of them. */
  lemma {:induction false} AcceptedRanksAtMostTen(ranks: seq<RankValue>)
    requires RanksOk(ranks)
    ensures |ranks| <= 10
  {
    var rs := set r | r in ranks;
    var all := set n | 1 <= n <= 10 :: Integer(n);
    assert rs <= all by {
      forall r | r in rs
        ensures r in all
      {
        var i :| 0 <= i < |ranks| && ranks[i] == r;
        assert InRange(ranks[i]);
      }
    }
    assert all == {Integer(1), Integer(2), Integer(3), Integer(4), Integer(5),
                   Integer(6), Integer(7), Integer(8), Integer(9), Integer(10)};
    SubsetSize(rs, all);
  }

  lemma {:induction false} SubsetSize<T>(a: set<T>, b: set<T>)
    requires a <= b
    ensures |a| <= |b|
  {
    assert b == a + (b - a);
  }

  /** The procedure's rank arguments, once every rank is known to be an integer. */
  function IntRanks(ranks: seq<RankValue>): (ns: seq<int>)
    requires forall i :: 0 <= i < |ranks| ==> ranks[i].Integer?
    ensures |ns| == |ranks| && forall i :: 0 <= i < |ranks| ==> ranks[i] == Integer(ns[i])
  {
    seq(|ranks|, i requires 0 <= i < |ranks| => ranks[i].n)
  }

  /** The call made for a body that passed both checks: the i-th id goes with the i-th rank. */
  function CallFor(b: Body): (c: RpcCall)
    requires BodyOk(b) && RanksOk(Ranks(b.entries.value))
    ensures c.listId == b.listId.value && |c.ids| == |c.ranks| == |b.entries.value|
    ensures forall i :: 0 <= i < |c.ids| ==>
      c.ids[i] == b.entries.value[i].id && b.entries.value[i].rank == Integer(c.ranks[i])
      && 1 <= c.ranks[i] <= 10
    ensures forall i, j :: 0 <= i < j < |c.ranks| ==> c.ranks[i] != c.ranks[j]
  {
    var es := b.entries.value;
    RanksOkMeans(Ranks(es));
    RpcCall(b.listId.value, Ids(es), IntRanks(Ranks(es)))
  }

  /** The procedure call's reply: its error with status 500, or `{ ok: true }`. */
  function AfterCall(rpcError: Option<string>): (r: Reply)
    ensures r.Done? <==> rpcError.None?
    ensures rpcError.Some? ==> r == Failure(500, rpcError.value)
  {
    if rpcError.Some? then Failure(500, rpcError.value) else Done
  }

  /** `POST /api/top10/reorder`: body and rank checks, then the call; no ownership check. */
  function Top10Reorder(b: Body, rpcError: Option<string>): (out: Outcome)
    ensures !BodyOk(b) ==> out == Outcome(Failure(400, InvalidBodyMessage), None)
    ensures BodyOk(b) && !RanksOk(Ranks(b.entries.value)) ==> out == Outcome(Failure(400, BadRanksMessage), None)
    ensures out.call.Some? <==> BodyOk(b) && RanksOk(Ranks(b.entries.value))
    ensures out.call.Some? ==> out.call.value == CallFor(b) && out.reply == AfterCall(rpcError)
    ensures out.reply.Done? ==> out.call.Some?
  {
    if !BodyOk(b) then Outcome(Failure(400, InvalidBodyMessage), None)
    else if !RanksOk(Ranks(b.entries.value)) then Outcome(Failure(400, BadRanksMessage), None)
    else Outcome(AfterCall(rpcError), Some(CallFor(b)))
  }

  /** The ids of the items of list `listId` (`select id ... eq("list_id", listId)`). */
  function ItemsOf(items: map<string, Top10Store.ItemRow>, listId: string): (ids: set<string>)
    ensures forall id :: id in ids <==> id in items && items[id].listId == listId
  {
    set id | id in items && items[id].listId == listId
  }

  /** Every id of `ids` is in `existing`; repetitions are not looked at. */
  predicate AllMembers(ids: seq<string>, existing: set<string>) {
    forall i :: 0 <= i < |ids| ==> ids[i] in existing
  }

  /** The store errors the dashboard endpoint can meet before the call. */
  datatype LookupErrors = LookupErrors(list: Option<string>, items: Option<string>)

  /**
    `POST /api/dashboard/reorder` for the signed-in `userId`: checks run in the order
    body, ranks, list lookup and ownership, item lookup and membership, then the call.
  */
  function DashboardReorderSpec(lists: map<string, Top10Store.ListRow>, items: map<string, Top10Store.ItemRow>,
                                userId: string, b: Body, errors: LookupErrors, rpcError: Option<string>)
    : (out: Outcome)
    ensures !BodyOk(b) ==> out == Outcome(Failure(400, InvalidBodyMessage), None)
    ensures BodyOk(b) && !RanksOk(Ranks(b.entries.value)) ==> out == Outcome(Failure(400, BadRanksMessage), None)
    ensures out.call.Some? <==>
      BodyOk(b) && RanksOk(Ranks(b.entries.value)) && errors.list.None?
      && b.listId.value in lists && lists[b.listId.value].owner == userId
      && errors.items.None? && AllMembers(Ids(b.entries.value), ItemsOf(items, b.listId.value))
    ensures out.call.Some? ==> out.call.value == CallFor(b) && out.reply == AfterCall(rpcError)
    ensures BodyOk(b) && RanksOk(Ranks(b.entries.value)) && errors.list.Some? ==>
      out == Outcome(Failure(500, errors.list.value), None)
    ensures (BodyOk(b) && RanksOk(Ranks(b.entries.value)) && errors.list.None?
             && (b.listId.value !in lists || lists[b.listId.value].owner != userId)) ==>
      out == Outcome(Failure(403, ForbiddenMessage), None)
    ensures (BodyOk(b) && RanksOk(Ranks(b.entries.value)) && errors.list.None?
             && b.listId.value in lists && lists[b.listId.value].owner == userId
             && errors.items.Some?) ==>
      out == Outcome(Failure(500, errors.items.value), None)
    ensures (BodyOk(b) && RanksOk(Ranks(b.entries.value)) && errors.list.None?
             && b.listId.value in lists && lists[b.listId.value].owner == userId
             && errors.items.None? && !AllMembers(Ids(b.entries.value), ItemsOf(items, b.listId.value))) ==>
      out == Outcome(Failure(400, NotMemberMessage), None)
    ensures out.reply.Done? ==> out.call.Some?
  {
    if !BodyOk(b) then Outcome(Failure(400, InvalidBodyMessage), None)
    else if !RanksOk(Ranks(b.entries.value)) then Outcome(Failure(400, BadRanksMessage), None)
    else
      var listId := b.listId.value;
      if errors.list.Some? then Outcome(Failure(500, errors.list.value), None)
      else if listId !in lists || lists[listId].owner != userId then Outcome(Failure(403, ForbiddenMessage), None)
      else if errors.items.Some? then Outcome(Failure(500, errors.items.value), None)
      else if !AllMembers(Ids(b.entries.value), ItemsOf(items, listId)) then
        Outcome(Failure(400, NotMemberMessage), None)
      else Outcome(AfterCall(rpcError), Some(CallFor(b)))
  }

  /** The membership loop: `for (const id of ids) if (!existingIds.has(id)) return 400`. */
  method CheckMembership(ids: seq<string>, existing: set<string>) returns (allMember: bool)
    ensures allMember <==> AllMembers(ids, existing)
  {
    for i := 0 to |ids|
      invariant forall k :: 0 <= k < i ==> ids[k] in existing
    {
      if ids[i] !in existing {
        return false;
      }
    }
    return true;
  }

  /** The dashboard endpoint over the tables; it reads them and never writes. */
  method DashboardReorder(tables: Top10Store.Top10Tables, userId: string, b: Body,
                          errors: LookupErrors, rpcError: Option<string>) returns (out: Outcome)
    ensures out == DashboardReorderSpec(tables.lists, tables.items, userId, b, errors, rpcError)
  {
    if !BodyOk(b) {
      return Outcome(Failure(400, InvalidBodyMessage), None);
    }
    var entries := b.entries.value;
    if !RanksOk(Ranks(entries)) {
      return Outcome(Failure(400, BadRanksMessage), None);
    }
    var listId := b.listId.value;
    if errors.list.Some? {
      return Outcome(Failure(500, errors.list.value), None);
    }
    if listId !in tables.lists || tables.lists[listId].owner != userId {
      return Outcome(Failure(403, ForbiddenMessage), None);
    }
    if errors.items.Some? {
      return Outcome(Failure(500, errors.items.value), None);
    }
    var existing := ItemsOf(tables.items, listId);
    var allMember := CheckMembership(Ids(entries), existing);
    if !allMember {
      return Outcome(Failure(400, NotMemberMessage), None);
    }
    return Outcome(AfterCall(rpcError), Some(CallFor(b)));
  }

  /** Whatever the dashboard endpoint sends, the top-10 endpoint sends too: it only checks less. */
  lemma DashboardIsStricter(lists: map<string, Top10Store.ListRow>, items: map<string, Top10Store.ItemRow>,
                            userId: string, b: Body, errors: LookupErrors, rpcError: Option<string>)
    requires DashboardReorderSpec(lists, items, userId, b, errors, rpcError).call.Some?
    ensures Top10Reorder(b, rpcError) == DashboardReorderSpec(lists, items, userId, b, errors, rpcError)
  {
  }

  /**
    The top-10 endpoint has no ownership check: it calls the procedure for a list that
    belongs to someone else, where the dashboard endpoint answers 403.
  */
  lemma Top10EndpointIgnoresOwnership(lists: map<string, Top10Store.ListRow>, items: map<string, Top10Store.ItemRow>,
                                      userId: string, b: Body, rpcError: Option<string>)
    requires BodyOk(b) && RanksOk(Ranks(b.entries.value))
    requires b.listId.value in lists && lists[b.listId.value].owner != userId
    ensures Top10Reorder(b, rpcError).call == Some(CallFor(b))
    ensures DashboardReorderSpec(lists, items, userId, b, LookupErrors(None, None), rpcError)
      == Outcome(Failure(403, ForbiddenMessage), None)
  {
  }

  /**
    The dashboard endpoint does not insist that the ids cover the list exactly: the same
    item may be sent twice, with two different ranks, and the call is made.
  */
  lemma DuplicateIdsReachTheCall()
    ensures
      var lists := map["L" := Top10Store.ListRow("me", 2024)];
      var items := map["a" := Top10Store.ItemRow("L", 1, None, None)];
      var b := Body(Some("L"), Some([Entry("a", Integer(1)), Entry("a", Integer(2))]));
      DashboardReorderSpec(lists, items, "me", b, LookupErrors(None, None), None)
        == Outcome(Done, Some(RpcCall("L", ["a", "a"], [1, 2])))
  {
    var b := Body(Some("L"), Some([Entry("a", Integer(1)), Entry("a", Integer(2))]));
    var rs := Ranks(b.entries.value);
    assert rs == [Integer(1), Integer(2)];
    assert Distinct(rs);
    RanksOkMeans(rs);
    assert Ids(b.entries.value) == ["a", "a"];
    assert IntRanks(rs) == [1, 2];
  }

  /** Duplicate ranks are refused by both endpoints before any call. */
  lemma DuplicateRanksRejected(b: Body, i: nat, j: nat, rpcError: Option<string>)
    requires BodyOk(b) && i < j < |b.entries.value|
    requires b.entries.value[i].rank == b.entries.value[j].rank
    ensures Top10Reorder(b, rpcError) == Outcome(Failure(400, BadRanksMessage), None)
  {
    RanksOkMeans(Ranks(b.entries.value));
  }
}
