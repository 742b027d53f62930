/**
  The client-side top-10 board: entries shown in rank order, reordered by drag and
  drop (the moved order is renumbered 1..n and sent to `/api/top10/reorder`), and
  edited or deleted through the server actions. The board's React state is the
  `Board` object; what a save or an action answered is a parameter of the handler
  that awaits it.
*/
module Top10BoardModel {
  import opened Wrappers
  import opened Text
  import RankSort
  import Reorder
  import Top10Store
  import MediaTypes

  datatype Media = Media(title: string, creators: Option<seq<string>>, imageUrl: Option<string>,
                         category: MediaTypes.Category)
  datatype BoardEntry = BoardEntry(id: string, rank: int, userNote: Option<string>, userLink: Option<string>,
                                   media: Media)

  const SavedToast: string := "저장되었습니다"
  const ErrorToastPrefix: string := "에러: "

  function RankOf(e: BoardEntry): int { e.rank }

  /** `[...entries].sort((a, b) => a.rank - b.rank)`: a stable sort by rank. */
  function SortByRank(entries: seq<BoardEntry>): (s: seq<BoardEntry>)
    ensures |s| == |entries| && multiset(s) == multiset(entries)
    ensures forall i, j :: 0 <= i < j < |s| ==> s[i].rank <= s[j].rank
  {
    RankSort.SortBy(entries, RankOf)
  }

  function BoardIds(items: seq<BoardEntry>): (ids: seq<string>)
    ensures |ids| == |items| && forall i :: 0 <= i < |items| ==> ids[i] == items[i].id
  {
    seq(|items|, i requires 0 <= i < |items| => items[i].id)
  }

  /** `ids.indexOf(x)`: the first position of `x`, or -1. */
  function IndexOf(ids: seq<string>, x: string): (i: int)
    ensures x in ids ==> 0 <= i < |ids| && ids[i] == x && x !in ids[..i]
    ensures x !in ids ==> i == -1
  {
    if ids == [] then -1
    else if ids[0] == x then 0
    else
      var j := IndexOf(ids[1..], x);
      if j < 0 then -1
      else
        assert ids[1..][..j] == ids[1..j + 1];
        assert ids[..j + 1] == [ids[0]] + ids[1..j + 1];
        j + 1
  }

  /** `s` without its element at `k`. */
  function Without<T>(s: seq<T>, k: nat): (r: seq<T>)
    requires k < |s|
    ensures |r| == |s| - 1
  {
    s[..k] + s[k + 1..]
  }

  /**
    `arrayMove(s, from, to)`: take out the element at `from` and put it back at `to`.
    The result is that element at `to` among the others in their old order.
  */
  function ArrayMove<T>(s: seq<T>, from: nat, to: nat): (r: seq<T>)
    requires from < |s| && to < |s|
    ensures |r| == |s| && r[to] == s[from]
    ensures Without(r, to) == Without(s, from)
    ensures multiset(r) == multiset(s)
  {
    var rest := Without(s, from);
    assert rest == s[..from] + s[from + 1..];
    var r := rest[..to] + [s[from]] + rest[to..];
    assert r[..to] == rest[..to];
    assert r[to + 1..] == rest[to..];
    assert rest[..to] + rest[to..] == rest;
    assert s == s[..from] + [s[from]] + s[from + 1..];
    assert multiset(r) == multiset(rest[..to]) + multiset{s[from]} + multiset(rest[to..]);
    assert multiset(rest) == multiset(rest[..to]) + multiset(rest[to..]);
    assert multiset(rest) == multiset(s[..from]) + multiset(s[from + 1..]);
    assert multiset(s) == multiset(s[..from]) + multiset{s[from]} + multiset(s[from + 1..]);
    assert multiset(r) == multiset(rest) + multiset{s[from]};
    assert multiset(s) == multiset(rest) + multiset{s[from]};
    r
  }

  /** Moving an element back to where it came from restores the order. */
  lemma MoveBackRestores<T>(s: seq<T>, from: nat, to: nat)
    requires from < |s| && to < |s|
    ensures ArrayMove(ArrayMove(s, from, to), to, from) == s
  {
    var r := ArrayMove(s, from, to);
    var back := ArrayMove(r, to, from);
    assert Without(back, from) == Without(s, from);
    assert back[from] == s[from];
    assert back == back[..from] + [back[from]] + back[from + 1..];
    assert s == s[..from] + [s[from]] + s[from + 1..];
    assert back[..from] == Without(back, from)[..from];
    assert s[..from] == Without(s, from)[..from];
    assert back[from + 1..] == Without(back, from)[from..];
    assert s[from + 1..] == Without(s, from)[from..];
  }

  /** `.map((e, idx) => ({ ...e, rank: idx + 1 }))` */
  function Renumber(s: seq<BoardEntry>): (r: seq<BoardEntry>)
    ensures |r| == |s| && forall i :: 0 <= i < |s| ==> r[i] == s[i].(rank := i + 1)
  {
    seq(|s|, i requires 0 <= i < |s| => s[i].(rank := i + 1))
  }

  /** `toPayload`: each entry's id with its position plus one as rank. */
  function ToPayload(s: seq<BoardEntry>): (p: seq<Reorder.Entry>)
    ensures |p| == |s|
    ensures forall i :: 0 <= i < |s| ==> p[i] == Reorder.Entry(s[i].id, Reorder.Integer(i + 1))
  {
    seq(|s|, i requires 0 <= i < |s| => Reorder.Entry(s[i].id, Reorder.Integer(i + 1)))
  }

  /** The payload of a renumbered board is exactly its (id, rank) pairs. */
  lemma PayloadIsIdsAndRanks(s: seq<BoardEntry>)
    ensures var r := Renumber(s);
      forall i :: 0 <= i < |r| ==> ToPayload(r)[i] == Reorder.Entry(r[i].id, Reorder.Integer(r[i].rank))
  {
  }

  /**
    A board of one to ten entries sends ranks the reorder endpoint accepts: integers
    1..n without duplicates, so the endpoint makes its call with the board's ids in order.
  */
  lemma PayloadAccepted(listId: string, s: seq<BoardEntry>, rpcError: Option<string>)
    requires listId != "" && 1 <= |s| <= 10
    ensures var b := Reorder.Body(Some(listId), Some(ToPayload(s)));
      Reorder.Top10Reorder(b, rpcError).call.Some?
      && Reorder.Top10Reorder(b, rpcError).call.value.ids == BoardIds(s)
  {
    var p := ToPayload(s);
    var ranks := Reorder.Ranks(p);
    assert Reorder.Distinct(ranks) by {
      forall i, j | 0 <= i < j < |ranks|
        ensures ranks[i] != ranks[j]
      {
        assert ranks[i] == Reorder.Integer(i + 1) && ranks[j] == Reorder.Integer(j + 1);
      }
    }
    Reorder.RanksOkMeans(ranks);
    var b := Reorder.Body(Some(listId), Some(p));
    var c := Reorder.Top10Reorder(b, rpcError).call.value;
    assert c.ids == BoardIds(s);
  }

  /** A board of more than ten entries cannot save a new order: the endpoint rejects it. */
  lemma LongBoardRejected(listId: string, s: seq<BoardEntry>, rpcError: Option<string>)
    requires listId != "" && |s| > 10
    ensures Reorder.Top10Reorder(Reorder.Body(Some(listId), Some(ToPayload(s))), rpcError)
         == Reorder.Outcome(Reorder.Failure(400, Reorder.BadRanksMessage), None)
  {
    var ranks := Reorder.Ranks(ToPayload(s));
    if Reorder.RanksOk(ranks) {
      Reorder.AcceptedRanksAtMostTen(ranks);
    }
  }

  /** `prev.filter((e) => e.id !== id)` */
  function RemoveId(s: seq<BoardEntry>, id: string): (r: seq<BoardEntry>)
    ensures |r| <= |s|
    ensures forall e :: e in r <==> e in s && e.id != id
  {
    if s == [] then []
    else
      var rest := RemoveId(s[1..], id);
      assert forall e :: e in s <==> e == s[0] || e in s[1..];
      if s[0].id != id then [s[0]] + rest else rest
  }

  /**
    With distinct ids, deleting the entry at `k` leaves the others exactly as they were,
    in order and with their ranks: the board is not renumbered.
  */
  lemma {:induction false} RemoveIdAt(s: seq<BoardEntry>, k: nat)
    requires k < |s| && Reorder.Distinct(BoardIds(s))
    ensures RemoveId(s, s[k].id) == Without(s, k)
  {
    DistinctTail(s);
    if k == 0 {
      KeepAllOthers(s[1..], s[0].id);
    } else {
      RemoveIdAt(s[1..], k - 1);
      WithoutTail(s, k);
    }
  }

  /** Removing a later position keeps the head in front. */
  lemma WithoutTail<T>(s: seq<T>, k: nat)
    requires 0 < k < |s|
    ensures Without(s, k) == [s[0]] + Without(s[1..], k - 1)
    ensures s[1..][k - 1] == s[k]
  {
    assert s[1..][..k - 1] == s[1..k];
    assert s[1..][k..] == s[k + 1..];
  }

  /** The entries after the first have distinct ids, none of them the first's. */
  lemma DistinctTail(s: seq<BoardEntry>)
    requires |s| > 0 && Reorder.Distinct(BoardIds(s))
    ensures Reorder.Distinct(BoardIds(s[1..]))
    ensures forall i :: 0 <= i < |s[1..]| ==> s[1..][i].id != s[0].id
  {
    var ids := BoardIds(s);
    var tail := BoardIds(s[1..]);
    forall i, j | 0 <= i < j < |tail|
      ensures tail[i] != tail[j]
    {
      assert ids[i + 1] != ids[j + 1];
    }
    forall i | 0 <= i < |s[1..]|
      ensures s[1..][i].id != s[0].id
    {
      assert ids[0] != ids[i + 1];
    }
  }

  /** Filtering out an id nobody has changes nothing. */
  lemma {:induction false} KeepAllOthers(s: seq<BoardEntry>, id: string)
    requires forall i :: 0 <= i < |s| ==> s[i].id != id
    ensures RemoveId(s, id) == s
  {
    if s != [] {
      KeepAllOthers(s[1..], id);
    }
  }

  /** `value.trim() || null` */
  function EditValue(value: string): (v: Option<string>)
    ensures v.None? <==> Trim(value) == []
    ensures v.Some? ==> v.value == Trim(value) && v.value != [] && Trimmed(v.value)
  {
    TrimIsTrimmedInfix(value);
    if Trim(value) == [] then None else Some(Trim(value))
  }

  /**
    What the board sends is what the item ends up holding: after a successful update
    the stored note and link are the trimmed edits, blank ones stored as null.
  */
  lemma EditStoredTrimmed(lists: map<string, Top10Store.ListRow>, items: map<string, Top10Store.ItemRow>,
                          userId: string, itemId: string, note: string, link: string, faults: Top10Store.Faults)
    requires Top10Store.UpdateOutcome(lists, items, userId, itemId, EditValue(note), EditValue(link), faults).0.Ok?
    ensures var after := Top10Store.UpdateOutcome(lists, items, userId, itemId, EditValue(note), EditValue(link), faults).1;
      (after[itemId].note.None? <==> Trim(note) == [])
      && (after[itemId].note.Some? ==> after[itemId].note.value == Trim(note))
      && (after[itemId].link.None? <==> Trim(link) == [])
      && (after[itemId].link.Some? ==> after[itemId].link.value == Trim(link))
  {
  }

  /** The `updateItem` call the edit dialog makes. */
  datatype UpdateRequest = UpdateRequest(itemId: string, userNote: Option<string>, userLink: Option<string>)

  /** The board's state. */
  class Board {
    const listId: string
    const allowDrag: bool
    const allowEdit: bool
    var items: seq<BoardEntry>
    var activeId: Option<string>
    var editing: Option<BoardEntry>
    var deleting: Option<BoardEntry>
    var editNote: string
    var editLink: string
    var toast: string

    /** The first render: entries in rank order, nothing open. */
    constructor (initialEntries: seq<BoardEntry>, listId: string, allowDrag: bool, allowEdit: bool)
      ensures this.listId == listId && this.allowDrag == allowDrag && this.allowEdit == allowEdit
      ensures items == SortByRank(initialEntries)
      ensures activeId.None? && editing.None? && deleting.None?
      ensures editNote == "" && editLink == "" && toast == ""
    {
      this.listId := listId;
      this.allowDrag := allowDrag;
      this.allowEdit := allowEdit;
      items := SortByRank(initialEntries);
      activeId := None;
      editing := None;
      deleting := None;
      editNote := "";
      editLink := "";
      toast := "";
    }

    /** New `initialEntries`: the items are replaced by them, sorted by rank. */
    method SyncProps(initialEntries: seq<BoardEntry>)
      modifies this
      ensures items == SortByRank(initialEntries)
      ensures activeId == old(activeId) && editing == old(editing) && deleting == old(deleting)
      ensures editNote == old(editNote) && editLink == old(editLink) && toast == old(toast)
    {
      items := SortByRank(initialEntries);
    }

    method HandleDragStart(id: string)
      modifies this
      ensures activeId == Some(id)
      ensures items == old(items) && editing == old(editing) && deleting == old(deleting)
      ensures editNote == old(editNote) && editLink == old(editLink) && toast == old(toast)
    {
      activeId := Some(id);
    }

    /**
      `handleDragEnd`: when dragging is allowed and the entry was dropped on another one,
      the entries are moved and renumbered, and the payload to save is returned. A save
      that fails is only logged, so nothing here depends on its answer.
    */
    method HandleDragEnd(active: string, over: Option<string>) returns (payload: Option<seq<Reorder.Entry>>)
      requires active in BoardIds(items) && (over.Some? ==> over.value in BoardIds(items))
      modifies this
      ensures !allowDrag ==> payload.None? && items == old(items) && activeId == old(activeId)
      ensures allowDrag ==> activeId.None?
      ensures payload.Some? <==> allowDrag && over.Some? && over.value != active
      ensures payload.None? ==> items == old(items)
      ensures payload.Some? ==>
        var from := IndexOf(BoardIds(old(items)), active);
        var to := IndexOf(BoardIds(old(items)), over.value);
        items == Renumber(ArrayMove(old(items), from, to)) && payload.value == ToPayload(items)
      ensures editing == old(editing) && deleting == old(deleting)
      ensures editNote == old(editNote) && editLink == old(editLink) && toast == old(toast)
    {
      if !allowDrag {
        return None;
      }
      activeId := None;
      if over.None? || active == over.value {
        return None;
      }
      var ids := BoardIds(items);
      var oldIndex := IndexOf(ids, active);
      var newIndex := IndexOf(ids, over.value);
      // The component also tests `oldIndex !== newIndex`: two different ids are first found
      // at two different positions, so that test always passes here.
      assert oldIndex != newIndex;
      var newItems := Renumber(ArrayMove(items, oldIndex, newIndex));
      items := newItems;
      return Some(ToPayload(newItems));
    }

    /** `openEdit(entry)`: the dialog starts from the entry's note and link. */
    method OpenEdit(entry: BoardEntry)
      modifies this
      ensures !allowEdit ==> editing == old(editing) && editNote == old(editNote) && editLink == old(editLink)
                             && toast == old(toast)
      ensures allowEdit ==> editing == Some(entry) && editNote == entry.userNote.GetOr("")
                            && editLink == entry.userLink.GetOr("") && toast == ""
      ensures items == old(items) && activeId == old(activeId) && deleting == old(deleting)
    {
      if !allowEdit {
        return;
      }
      editing := Some(entry);
      editNote := entry.userNote.GetOr("");
      editLink := entry.userLink.GetOr("");
      toast := "";
    }

    method OpenDelete(entry: BoardEntry)
      modifies this
      ensures !allowEdit ==> deleting == old(deleting) && toast == old(toast)
      ensures allowEdit ==> deleting == Some(entry) && toast == ""
      ensures items == old(items) && activeId == old(activeId) && editing == old(editing)
      ensures editNote == old(editNote) && editLink == old(editLink)
    {
      if !allowEdit {
        return;
      }
      deleting := Some(entry);
      toast := "";
    }

    /**
      `onConfirmEdit`: sends the trimmed note and link; `failure` is the message the
      action threw, if it did. The board's own entries are not updated either way.
    */
    method ConfirmEdit(failure: Option<string>) returns (request: Option<UpdateRequest>)
      modifies this
      ensures old(editing).None? ==> request.None? && toast == old(toast) && editing == old(editing)
      ensures old(editing).Some? ==>
        request == Some(UpdateRequest(old(editing).value.id, EditValue(old(editNote)), EditValue(old(editLink))))
      ensures old(editing).Some? && failure.None? ==> toast == SavedToast && editing.None?
      ensures old(editing).Some? && failure.Some? ==>
        toast == ErrorToastPrefix + failure.value && editing == old(editing)
      ensures items == old(items) && activeId == old(activeId) && deleting == old(deleting)
      ensures editNote == old(editNote) && editLink == old(editLink)
    {
      if editing.None? {
        return None;
      }
      request := Some(UpdateRequest(editing.value.id, EditValue(editNote), EditValue(editLink)));
      if failure.None? {
        toast := SavedToast;
        editing := None;
      } else {
        toast := ErrorToastPrefix + failure.value;
      }
    }

    /**
      `onConfirmDelete`: asks to delete the entry; on success the entry leaves the board
      and the others keep their ranks.
    */
    method ConfirmDelete(failure: Option<string>) returns (request: Option<string>)
      modifies this
      ensures old(deleting).None? ==> request.None? && items == old(items) && toast == old(toast)
                                      && deleting == old(deleting)
      ensures old(deleting).Some? ==> request == Some(old(deleting).value.id)
      ensures old(deleting).Some? && failure.None? ==>
        items == RemoveId(old(items), old(deleting).value.id) && deleting.None? && toast == old(toast)
      ensures old(deleting).Some? && failure.Some? ==>
        items == old(items) && deleting == old(deleting) && toast == ErrorToastPrefix + failure.value
      ensures activeId == old(activeId) && editing == old(editing)
      ensures editNote == old(editNote) && editLink == old(editLink)
    {
      if deleting.None? {
        return None;
      }
      var id := deleting.value.id;
      request := Some(id);
      if failure.None? {
        items := RemoveId(items, id);
        deleting := None;
      } else {
        toast := ErrorToastPrefix + failure.value;
      }
    }
  }
}
