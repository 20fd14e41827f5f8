/**
 * The notification records of the store (src/stores/notifications.ts) and the
 * pure list transforms behind its operations: deduplicated bounded insertion,
 * the invitation status patch, read-state changes and the unread count, and
 * the records the three event handlers build.
 */
module Registry {
  import opened Js

  /** MAX_ITEMS: the most records the store keeps and persists. */
  const MAX_ITEMS: nat := 50

  const INVITATION_CREATED := "invitation.created"
  const INVITATION_RESPONDED := "invitation.responded"
  const MEMBER_REMOVED := "team.member.removed"

  /**
   * The fields of an item's `payload` (and of an inbound event) that the store
   * reads: `id`, `token`, `status`, `team.name`, `team.id`, `team_id` and
   * `user.name`; every other top-level key with a scalar value is kept,
   * uninterpreted, in `rest`. Nested objects and arrays, other fields of `team`
   * and `user`, and the dropping of undefined keys by `JSON.stringify` are not
   * represented; the store reads none of them.
   * An absent payload is the one whose fields are all Undefined.
   * `rest` never holds the keys `id`, `token`, `status`, `team_id`, `team` or
   * `user`, so each JavaScript object has one representation (`WellFormed`).
   */
  datatype Payload = Payload(
    id: Value,
    token: Value,
    status: Value,
    teamName: Value,
    teamObjectId: Value,
    teamId: Value,
    userName: Value,
    rest: map<string, Value>)

  predicate WellFormed(p: Payload)
  {
    forall k :: k in p.rest ==> k !in {"id", "token", "status", "team_id", "team", "user"}
  }

  /** NotificationItem; `kind` is the source's `type` field. */
  datatype NotificationItem = NotificationItem(
    id: string,
    kind: string,
    title: string,
    message: string,
    payload: Payload,
    createdAt: string,
    read: bool)

  function Min(a: nat, b: nat): nat { if a <= b then a else b }

  /** `items.slice(0, MAX_ITEMS)`. */
  function Bounded(items: seq<NotificationItem>): (r: seq<NotificationItem>)
    ensures |r| == Min(MAX_ITEMS, |items|)
    ensures r == items[..|r|]
  {
    items[..Min(MAX_ITEMS, |items|)]
  }

  // ---------------------------------------------------------------- add

  /** The `find` test in `add`: same type and the same truthy `payload.id`. */
  predicate IsDuplicateOf(current: NotificationItem, item: NotificationItem)
  {
    current.kind == item.kind && Truthy(current.payload.id) && current.payload.id == item.payload.id
  }

  predicate HasDuplicate(items: seq<NotificationItem>, item: NotificationItem)
  {
    exists i :: 0 <= i < |items| && IsDuplicateOf(items[i], item)
  }

  /** The list `add` leaves behind. */
  function AddItem(items: seq<NotificationItem>, item: NotificationItem): (r: seq<NotificationItem>)
    ensures HasDuplicate(items, item) ==> r == items
    ensures !HasDuplicate(items, item) ==> |r| == Min(MAX_ITEMS, |items| + 1) && r[0] == item && r[1..] == items[..|r| - 1]
  {
    if HasDuplicate(items, item) then items else Bounded([item] + items)
  }

  /** A duplicate leaves the list as it was. */
  lemma AddDuplicateIsNoOp(items: seq<NotificationItem>, item: NotificationItem, k: nat)
    requires k < |items|
    requires items[k].kind == item.kind && Truthy(items[k].payload.id)
    requires items[k].payload.id == item.payload.id
    ensures AddItem(items, item) == items
  {
  }

  /** An item without a truthy payload id is never a duplicate, and is always inserted. */
  lemma AddWithoutIdAlwaysInserts(items: seq<NotificationItem>, item: NotificationItem)
    requires !Truthy(item.payload.id)
    ensures !HasDuplicate(items, item)
    ensures AddItem(items, item) == Bounded([item] + items)
    ensures AddItem(items, item)[0] == item
  {
  }

  /**
   * A non-duplicate is put first, the list is cut to MAX_ITEMS, and what follows
   * the new item is the newest part of the old list: the oldest are evicted.
   */
  lemma {:induction false} AddPrependsAndEvictsOldest(items: seq<NotificationItem>, item: NotificationItem)
    requires !HasDuplicate(items, item)
    ensures var r := AddItem(items, item);
            && |r| == Min(MAX_ITEMS, |items| + 1)
            && |r| <= MAX_ITEMS
            && r[0] == item
            && r[1..] == items[..|r| - 1]
            && (|items| < MAX_ITEMS ==> r[1..] == items)
  {
    var r := AddItem(items, item);
    assert r == ([item] + items)[..|r|];
    assert r[1..] == ([item] + items)[1..|r|];
    assert ([item] + items)[1..] == items;
  }

  // -------------------------------------------------- updateInvitationStatus

  /** The item `updateInvitationStatus(token, …)` rewrites. */
  predicate MatchesInvitation(item: NotificationItem, token: Value)
  {
    item.kind == INVITATION_CREATED && (item.payload.token == token || item.payload.id == token)
  }

  predicate AnyMatch(items: seq<NotificationItem>, token: Value)
  {
    exists i :: 0 <= i < |items| && MatchesInvitation(items[i], token)
  }

  /** `{ ...item, payload: { ...item.payload, status } }`. */
  function WithStatus(item: NotificationItem, status: Value): (r: NotificationItem)
    ensures r.payload.status == status
    ensures r.(payload := r.payload.(status := item.payload.status)) == item
  {
    item.(payload := item.payload.(status := status))
  }

  function PatchOne(item: NotificationItem, token: Value, status: Value): NotificationItem
  {
    if MatchesInvitation(item, token) then WithStatus(item, status) else item
  }

  /** The list `updateInvitationStatus(token, status)` leaves behind. */
  function PatchStatus(items: seq<NotificationItem>, token: Value, status: Value): (r: seq<NotificationItem>)
    ensures |r| == |items|
  {
    if items == [] then [] else [PatchOne(items[0], token, status)] + PatchStatus(items[1..], token, status)
  }

  /**
   * The patch keeps length and order, sets the status of exactly the matching
   * invitations and changes nothing else in them, and leaves every other item alone.
   */
  lemma {:induction false} PatchStatusAt(items: seq<NotificationItem>, token: Value, status: Value, k: nat)
    requires k < |items|
    ensures |PatchStatus(items, token, status)| == |items|
    ensures MatchesInvitation(items[k], token) ==>
              PatchStatus(items, token, status)[k] == items[k].(payload := items[k].payload.(status := status))
    ensures !MatchesInvitation(items[k], token) ==> PatchStatus(items, token, status)[k] == items[k]
    decreases k
  {
    if k > 0 {
      PatchStatusAt(items[1..], token, status, k - 1);
    }
  }

  /** Without a matching invitation the list is unchanged. */
  lemma {:induction false} PatchStatusNoMatch(items: seq<NotificationItem>, token: Value, status: Value)
    requires !AnyMatch(items, token)
    ensures PatchStatus(items, token, status) == items
    decreases |items|
  {
    if items != [] {
      assert !MatchesInvitation(items[0], token);
      assert forall i :: 0 <= i < |items[1..]| ==> items[1..][i] == items[i + 1];
      PatchStatusNoMatch(items[1..], token, status);
      assert items == [items[0]] + items[1..];
    }
  }

  /** Patching twice with the same arguments is patching once. */
  lemma {:induction false} PatchStatusIdempotent(items: seq<NotificationItem>, token: Value, status: Value)
    ensures PatchStatus(PatchStatus(items, token, status), token, status) == PatchStatus(items, token, status)
    decreases |items|
  {
    if items != [] {
      var p := PatchStatus(items, token, status);
      assert p[0] == PatchOne(items[0], token, status);
      assert p[1..] == PatchStatus(items[1..], token, status);
      assert PatchOne(p[0], token, status) == p[0];
      PatchStatusIdempotent(items[1..], token, status);
    }
  }

  lemma {:induction false} PatchStatusAppend(items: seq<NotificationItem>, item: NotificationItem, token: Value, status: Value)
    ensures PatchStatus(items + [item], token, status) == PatchStatus(items, token, status) + [PatchOne(item, token, status)]
    decreases |items|
  {
    if items == [] {
      assert items + [item] == [item];
    } else {
      assert (items + [item])[1..] == items[1..] + [item];
      PatchStatusAppend(items[1..], item, token, status);
    }
  }

  /** The patch commutes with cutting the list to a prefix. */
  lemma PatchStatusPrefix(items: seq<NotificationItem>, n: nat, token: Value, status: Value)
    requires n <= |items|
    ensures PatchStatus(items[..n], token, status) == PatchStatus(items, token, status)[..n]
  {
    var a := PatchStatus(items[..n], token, status);
    var b := PatchStatus(items, token, status);
    forall k | 0 <= k < n
      ensures a[k] == b[k]
    {
      PatchStatusAt(items[..n], token, status, k);
      PatchStatusAt(items, token, status, k);
    }
  }

  /** Dedup looks only at types and payload ids, which the patch never changes. */
  lemma PatchStatusKeepsDuplicates(items: seq<NotificationItem>, item: NotificationItem, token: Value, status: Value)
    ensures HasDuplicate(PatchStatus(items, token, status), item) == HasDuplicate(items, item)
  {
    var p := PatchStatus(items, token, status);
    forall k | 0 <= k < |items|
      ensures IsDuplicateOf(p[k], item) == IsDuplicateOf(items[k], item)
    {
      PatchStatusAt(items, token, status, k);
    }
    if HasDuplicate(items, item) {
      var k :| 0 <= k < |items| && IsDuplicateOf(items[k], item);
      assert IsDuplicateOf(p[k], item);
    }
    if HasDuplicate(p, item) {
      var k :| 0 <= k < |p| && IsDuplicateOf(p[k], item);
      assert IsDuplicateOf(items[k], item);
    }
  }

  /**
   * Inserting a record that is not an invitation commutes with the status patch:
   * patching before or after the insertion gives the same list.
   */
  lemma AddItemPatchCommute(items: seq<NotificationItem>, item: NotificationItem, token: Value, status: Value)
    requires item.kind != INVITATION_CREATED
    ensures AddItem(PatchStatus(items, token, status), item) == PatchStatus(AddItem(items, item), token, status)
  {
    PatchStatusKeepsDuplicates(items, item, token, status);
    if !HasDuplicate(items, item) {
      var whole := [item] + items;
      assert whole[1..] == items;
      assert PatchStatus(whole, token, status) == [item] + PatchStatus(items, token, status);
      PatchStatusPrefix(whole, Min(MAX_ITEMS, |whole|), token, status);
    }
  }

  // ------------------------------------------------------------ read state

  /** `items.filter((item) => !item.read).length`. */
  function Unread(items: seq<NotificationItem>): (n: nat)
    ensures n <= |items|
  {
    if items == [] then 0 else (if items[0].read then 0 else 1) + Unread(items[1..])
  }

  lemma {:induction false} UnreadAtMostLength(items: seq<NotificationItem>)
    ensures Unread(items) <= |items|
    ensures Unread(items) == 0 <==> forall i :: 0 <= i < |items| ==> items[i].read
    decreases |items|
  {
    if items != [] {
      UnreadAtMostLength(items[1..]);
      assert forall i :: 1 <= i < |items| ==> items[i] == items[1..][i - 1];
    }
  }

  /** `markAsRead(id)`: the items with that id become read. */
  function MarkRead(items: seq<NotificationItem>, id: string): (r: seq<NotificationItem>)
    ensures |r| == |items|
  {
    if items == [] then []
    else [if items[0].id == id then items[0].(read := true) else items[0]] + MarkRead(items[1..], id)
  }

  /** markAsRead keeps length and order, sets `read` on the items with the id and touches nothing else. */
  lemma {:induction false} MarkReadAt(items: seq<NotificationItem>, id: string, k: nat)
    requires k < |items|
    ensures |MarkRead(items, id)| == |items|
    ensures items[k].id == id ==> MarkRead(items, id)[k] == items[k].(read := true)
    ensures items[k].id != id ==> MarkRead(items, id)[k] == items[k]
    decreases k
  {
    if k > 0 {
      MarkReadAt(items[1..], id, k - 1);
    }
  }

  /** markAsRead is idempotent and never raises the unread count. */
  lemma {:induction false} MarkReadIdempotent(items: seq<NotificationItem>, id: string)
    ensures MarkRead(MarkRead(items, id), id) == MarkRead(items, id)
    ensures Unread(MarkRead(items, id)) <= Unread(items)
    decreases |items|
  {
    if items != [] {
      var m := MarkRead(items, id);
      assert m[1..] == MarkRead(items[1..], id);
      MarkReadIdempotent(items[1..], id);
    }
  }

  /** `markAllAsRead`: every item becomes read. */
  function MarkAllRead(items: seq<NotificationItem>): (r: seq<NotificationItem>)
    ensures |r| == |items|
  {
    if items == [] then [] else [items[0].(read := true)] + MarkAllRead(items[1..])
  }

  /** After markAllAsRead every item is read, nothing else changed, and the unread count is 0. */
  lemma {:induction false} MarkAllReadAllRead(items: seq<NotificationItem>)
    ensures |MarkAllRead(items)| == |items|
    ensures forall i :: 0 <= i < |items| ==> MarkAllRead(items)[i] == items[i].(read := true)
    ensures Unread(MarkAllRead(items)) == 0
    decreases |items|
  {
    if items != [] {
      MarkAllReadAllRead(items[1..]);
      var m := MarkAllRead(items);
      assert forall i :: 1 <= i < |items| ==> m[i] == m[1..][i - 1] && items[i] == items[1..][i - 1];
    }
  }

  /** markAllAsRead is idempotent. */
  lemma {:induction false} MarkAllReadIdempotent(items: seq<NotificationItem>)
    ensures MarkAllRead(MarkAllRead(items)) == MarkAllRead(items)
    decreases |items|
  {
    if items != [] {
      var m := MarkAllRead(items);
      assert m[1..] == MarkAllRead(items[1..]);
      MarkAllReadIdempotent(items[1..]);
    }
  }

  /** The status patch does not touch read flags. */
  lemma {:induction false} PatchStatusKeepsUnread(items: seq<NotificationItem>, token: Value, status: Value)
    ensures Unread(PatchStatus(items, token, status)) == Unread(items)
    decreases |items|
  {
    if items != [] {
      var p := PatchStatus(items, token, status);
      assert p[1..] == PatchStatus(items[1..], token, status);
      PatchStatusKeepsUnread(items[1..], token, status);
    }
  }

  /**
   * The `map` in `updateInvitationStatus`, with its `updated` flag: returns the
   * patched list and whether any invitation matched.
   */
  method MapPatch(items: seq<NotificationItem>, token: Value, status: Value)
    returns (patched: seq<NotificationItem>, updated: bool)
    ensures patched == PatchStatus(items, token, status)
    ensures updated <==> AnyMatch(items, token)
    ensures !updated ==> patched == items
  {
    patched, updated := [], false;
    var i := 0;
    while i < |items|
      invariant 0 <= i <= |items|
      invariant patched == PatchStatus(items[..i], token, status)
      invariant updated <==> exists j :: 0 <= j < i && MatchesInvitation(items[j], token)
    {
      var item := items[i];
      PatchStatusAppend(items[..i], item, token, status);
      assert items[..i + 1] == items[..i] + [item];
      if MatchesInvitation(item, token) {
        updated := true;
        patched := patched + [WithStatus(item, status)];
      } else {
        patched := patched + [item];
      }
      i := i + 1;
    }
    assert items[..i] == items;
    if !updated {
      PatchStatusNoMatch(items, token, status);
    }
  }

  // -------------------------------------------------------- event builders

  /** The record `addInvitationCreated(event)` adds. */
  function InvitationCreatedItem(event: Payload, freshId: string, now: string): (r: NotificationItem)
    ensures r.kind == INVITATION_CREATED && r.id == freshId && r.createdAt == now && !r.read
    ensures Truthy(event.status) ==> r.payload.status == event.status
    ensures !Truthy(event.status) ==> r.payload.status == Str("pending")
    ensures Truthy(r.payload.status)
    ensures r.payload.(status := event.status) == event
    ensures WellFormed(event) ==> WellFormed(r.payload)
    ensures r.title == "隊伍邀請"
    ensures Truthy(event.teamName) ==> r.message == "「" + Text(event.teamName) + "」邀請你加入"
    ensures !Truthy(event.teamName) ==> r.message == "「" + Text(event.teamId) + "」邀請你加入"
  {
    var status := Or(event.status, Str("pending"));
    NotificationItem(
      freshId,
      INVITATION_CREATED,
      "隊伍邀請",
      "「" + Text(Or(event.teamName, event.teamId)) + "」邀請你加入",
      event.(status := status),
      now,
      false)
  }

  /** The record `addInvitationResponded(event)` adds. */
  function InvitationRespondedItem(event: Payload, freshId: string, now: string): (r: NotificationItem)
    ensures r.kind == INVITATION_RESPONDED && r.id == freshId && r.createdAt == now && !r.read
    ensures r.payload == event
    ensures r.title == "邀請更新"
    ensures Truthy(event.userName) ==> r.message == Text(event.userName) + " 對邀請的回覆：" + Text(event.status)
    ensures !Truthy(event.userName) ==> r.message == "成員 對邀請的回覆：" + Text(event.status)
  {
    NotificationItem(
      freshId,
      INVITATION_RESPONDED,
      "邀請更新",
      Text(Or(event.userName, Str("成員"))) + " 對邀請的回覆：" + Text(event.status),
      event,
      now,
      false)
  }

  /** The record `addMemberRemoved(event)` adds. */
  function MemberRemovedItem(event: Payload, freshId: string, now: string): (r: NotificationItem)
    ensures r.kind == MEMBER_REMOVED && r.id == freshId && r.createdAt == now && !r.read
    ensures r.payload == event
    ensures r.title == "隊伍通知"
    ensures Truthy(event.teamName) ==> r.message == "你已被移出隊伍「" + Text(event.teamName) + "」"
    ensures !Truthy(event.teamName) ==> r.message == "你已被移出隊伍「" + Text(event.teamObjectId) + "」"
  {
    NotificationItem(
      freshId,
      MEMBER_REMOVED,
      "隊伍通知",
      "你已被移出隊伍「" + Text(Or(event.teamName, event.teamObjectId)) + "」",
      event,
      now,
      false)
  }
}
