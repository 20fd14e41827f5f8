/**
 * The notification store (`useNotificationStore` in src/stores/notifications.ts):
 * the record list, the storage slot it mirrors, and the push-channel
 * subscription that feeds it. The pure effect of each inbound event comes
 * first; the class then performs the same steps in place.
 */
module Store {
  import opened Js
  import opened Registry
  import opened Storage
  import opened Echo

  const CREATED_EVENT := "team.invitation.created"
  const RESPONDED_EVENT := "team.invitation.responded"
  const REMOVED_EVENT := "team.member.removed"
  const CHANNEL_PREFIX := "private-users."

  // ------------------------------------------------ effects of inbound events

  /**
   * Whether `addInvitationResponded(event)` writes the slot: its `add` inserted
   * the record, or its status patch matched an invitation.
   */
  predicate RespondedWrites(items: seq<NotificationItem>, event: Payload, freshId: string, now: string)
  {
    var rec := InvitationRespondedItem(event, freshId, now);
    !HasDuplicate(items, rec) || (Truthy(event.token) && AnyMatch(AddItem(items, rec), event.token))
  }

  /** The list after `addInvitationResponded(event)`: the record, then the patch when a token is present. */
  function Responded(items: seq<NotificationItem>, event: Payload, freshId: string, now: string): (r: seq<NotificationItem>)
    ensures |r| == |AddItem(items, InvitationRespondedItem(event, freshId, now))|
    ensures !Truthy(event.token) ==> r == AddItem(items, InvitationRespondedItem(event, freshId, now))
    ensures Truthy(event.token) ==>
              r == PatchStatus(AddItem(items, InvitationRespondedItem(event, freshId, now)), event.token, event.status)
    ensures !RespondedWrites(items, event, freshId, now) ==> r == items
  {
    var added := AddItem(items, InvitationRespondedItem(event, freshId, now));
    if !Truthy(event.token) then added
    else if AnyMatch(added, event.token) then PatchStatus(added, event.token, event.status)
    else PatchStatusNoMatch(added, event.token, event.status); PatchStatus(added, event.token, event.status)
  }

  /** Whether the handler bound to `eventName` writes the slot. */
  predicate IngestWrites(items: seq<NotificationItem>, eventName: string, event: Payload, freshId: string, now: string)
  {
    if eventName == CREATED_EVENT then !HasDuplicate(items, InvitationCreatedItem(event, freshId, now))
    else if eventName == RESPONDED_EVENT then RespondedWrites(items, event, freshId, now)
    else if eventName == REMOVED_EVENT then !HasDuplicate(items, MemberRemovedItem(event, freshId, now))
    else false
  }

  /** The list after the handler bound to `eventName` ran; unbound names change nothing. */
  function Ingest(items: seq<NotificationItem>, eventName: string, event: Payload, freshId: string, now: string): (r: seq<NotificationItem>)
    ensures eventName == CREATED_EVENT ==> r == AddItem(items, InvitationCreatedItem(event, freshId, now))
    ensures eventName == RESPONDED_EVENT ==> r == Responded(items, event, freshId, now)
    ensures eventName == REMOVED_EVENT ==> r == AddItem(items, MemberRemovedItem(event, freshId, now))
    ensures eventName != CREATED_EVENT && eventName != RESPONDED_EVENT && eventName != REMOVED_EVENT ==> r == items
    ensures !IngestWrites(items, eventName, event, freshId, now) ==> r == items
  {
    if eventName == CREATED_EVENT then AddItem(items, InvitationCreatedItem(event, freshId, now))
    else if eventName == RESPONDED_EVENT then Responded(items, event, freshId, now)
    else if eventName == REMOVED_EVENT then AddItem(items, MemberRemovedItem(event, freshId, now))
    else items
  }

  /** When the `bind_global` fallback patches: a responded event with a truthy token and status. */
  predicate FallbackApplies(eventName: string, event: Payload)
  {
    eventName == RESPONDED_EVENT && Truthy(event.token) && Truthy(event.status)
  }

  /** Whether the `bind_global` fallback writes the slot: it applies and some invitation matches. */
  predicate FallbackWrites(items: seq<NotificationItem>, eventName: string, event: Payload)
  {
    FallbackApplies(eventName, event) && AnyMatch(items, event.token)
  }

  /** The list after the `bind_global` fallback ran. */
  function Fallback(items: seq<NotificationItem>, eventName: string, event: Payload): (r: seq<NotificationItem>)
    ensures |r| == |items| && Unread(r) == Unread(items)
    ensures FallbackApplies(eventName, event) ==> r == PatchStatus(items, event.token, event.status)
    ensures !FallbackApplies(eventName, event) ==> r == items
    ensures !FallbackWrites(items, eventName, event) ==> r == items
  {
    if !FallbackApplies(eventName, event) then items
    else
      PatchStatusKeepsUnread(items, event.token, event.status);
      if AnyMatch(items, event.token) then PatchStatus(items, event.token, event.status)
      else PatchStatusNoMatch(items, event.token, event.status); PatchStatus(items, event.token, event.status)
  }

  /**
   * Whether an event delivered on the channel writes the slot: the fallback,
   * which runs first, writes, or the bound handler writes after it.
   */
  predicate DeliverWrites(items: seq<NotificationItem>, eventName: string, event: Payload, freshId: string, now: string)
  {
    FallbackWrites(items, eventName, event)
    || IngestWrites(Fallback(items, eventName, event), eventName, event, freshId, now)
  }

  /**
   * The fallback's second status patch is harmless: running it before or after
   * the event's own handler leaves the same list as the handler alone.
   */
  lemma FallbackHarmless(items: seq<NotificationItem>, eventName: string, event: Payload, freshId: string, now: string)
    ensures Ingest(Fallback(items, eventName, event), eventName, event, freshId, now)
            == Ingest(items, eventName, event, freshId, now)
    ensures Fallback(Ingest(items, eventName, event, freshId, now), eventName, event)
            == Ingest(items, eventName, event, freshId, now)
  {
    if FallbackApplies(eventName, event) {
      var t, s := event.token, event.status;
      var rec := InvitationRespondedItem(event, freshId, now);
      var once := PatchStatus(AddItem(items, rec), t, s);
      AddItemPatchCommute(items, rec, t, s);
      PatchStatusIdempotent(AddItem(items, rec), t, s);
      assert Ingest(items, eventName, event, freshId, now) == once;
      assert Ingest(PatchStatus(items, t, s), eventName, event, freshId, now)
             == PatchStatus(PatchStatus(AddItem(items, rec), t, s), t, s);
    }
  }

  /** The channel the store subscribes to for a user id. */
  function ChannelName(userId: int): (name: string)
    ensures |name| > |CHANNEL_PREFIX| && name[..|CHANNEL_PREFIX|] == CHANNEL_PREFIX
    ensures name[|CHANNEL_PREFIX|..] == IntToDecimal(userId)
  {
    CHANNEL_PREFIX + IntToDecimal(userId)
  }

  /** Different users get different channels. */
  lemma ChannelNameInjective(a: int, b: int)
    requires ChannelName(a) == ChannelName(b)
    ensures a == b
  {
    assert ChannelName(a)[|CHANNEL_PREFIX|..] == IntToDecimal(a);
    assert ChannelName(b)[|CHANNEL_PREFIX|..] == IntToDecimal(b);
    IntToDecimalInjective(a, b);
  }

  /** `connect` goes ahead only with a truthy auth token and a truthy user id. */
  predicate CanConnect(token: Option<string>, userId: Option<int>)
  {
    token.Some? && token.value != "" && userId.Some? && userId.value != 0
  }

  /** The calls the store makes on the push client. */
  datatype TransportCall = Open(config: SocketConfig) | Subscribe(channel: string) | Unsubscribe(channel: string) | Close

  /** The calls `disconnect` makes from a given client and channel. */
  function Teardown(client: Option<SocketConfig>, channel: Option<string>): (calls: seq<TransportCall>)
    ensures client.None? ==> calls == []
    ensures channel.Some? && client.Some? ==> calls == [Unsubscribe(channel.value), Close]
    ensures channel.None? && client.Some? ==> calls == [Close]
  {
    (if channel.Some? && client.Some? then [Unsubscribe(channel.value)] else [])
    + (if client.Some? then [Close] else [])
  }

  class NotificationStore {
    var items: seq<NotificationItem>
    var stored: Slot
    var client: Option<SocketConfig>
    var channel: Option<string>
    var transport: seq<TransportCall>

    /** A channel is only ever held together with the client it came from. */
    ghost predicate Valid()
      reads this
    {
      channel.Some? ==> client.Some?
    }

    /** The storage slot holds the persisted form of the current list. */
    ghost predicate Synced()
      reads this
    {
      stored == Persisted(items)
    }

    /** The store starts from whatever the slot holds, unsubscribed. */
    constructor (slot: Slot, freshId: nat -> string, now: nat -> string)
      ensures items == Load(slot, freshId, now) && stored == slot
      ensures client.None? && channel.None? && transport == []
      ensures Valid()
    {
      items := Load(slot, freshId, now);
      stored := slot;
      client, channel := None, None;
      transport := [];
    }

    /** `unreadCount`. */
    function UnreadCount(): (n: nat)
      reads this
      ensures n <= |items|
      ensures n == 0 <==> forall i :: 0 <= i < |items| ==> items[i].read
    {
      UnreadAtMostLength(items);
      Unread(items)
    }

    /** `persist(items.value)`. */
    method Persist()
      modifies this`stored
      ensures Synced()
    {
      stored := Persisted(items);
    }

    method Add(item: NotificationItem)
      modifies this`items, this`stored
      ensures items == AddItem(old(items), item)
      ensures HasDuplicate(old(items), item) ==> items == old(items) && stored == old(stored)
      ensures !HasDuplicate(old(items), item) ==> Synced() && |items| <= MAX_ITEMS
    {
      if HasDuplicate(items, item) {
        return;
      }
      AddPrependsAndEvictsOldest(items, item);
      items := Bounded([item] + items);
      Persist();
    }

    method UpdateInvitationStatus(token: Value, status: Value)
      modifies this`items, this`stored
      ensures items == PatchStatus(old(items), token, status)
      ensures AnyMatch(old(items), token) ==> Synced()
      ensures !AnyMatch(old(items), token) ==> items == old(items) && stored == old(stored)
    {
      var patched, updated := MapPatch(items, token, status);
      items := patched;
      if updated {
        Persist();
      }
    }

    method AddInvitationCreated(event: Payload, freshId: string, now: string)
      modifies this`items, this`stored
      ensures items == AddItem(old(items), InvitationCreatedItem(event, freshId, now))
      ensures HasDuplicate(old(items), InvitationCreatedItem(event, freshId, now)) ==>
                items == old(items) && stored == old(stored)
      ensures !HasDuplicate(old(items), InvitationCreatedItem(event, freshId, now)) ==> Synced()
      ensures Synced() || (items == old(items) && stored == old(stored))
    {
      Add(InvitationCreatedItem(event, freshId, now));
    }

    method AddInvitationResponded(event: Payload, freshId: string, now: string)
      modifies this`items, this`stored
      ensures items == Responded(old(items), event, freshId, now)
      ensures RespondedWrites(old(items), event, freshId, now) ==> Synced()
      ensures !RespondedWrites(old(items), event, freshId, now) ==> items == old(items) && stored == old(stored)
      ensures Synced() || (items == old(items) && stored == old(stored))
    {
      Add(InvitationRespondedItem(event, freshId, now));
      if Truthy(event.token) {
        UpdateInvitationStatus(event.token, event.status);
      }
    }

    method AddMemberRemoved(event: Payload, freshId: string, now: string)
      modifies this`items, this`stored
      ensures items == AddItem(old(items), MemberRemovedItem(event, freshId, now))
      ensures HasDuplicate(old(items), MemberRemovedItem(event, freshId, now)) ==>
                items == old(items) && stored == old(stored)
      ensures !HasDuplicate(old(items), MemberRemovedItem(event, freshId, now)) ==> Synced()
      ensures Synced() || (items == old(items) && stored == old(stored))
    {
      Add(MemberRemovedItem(event, freshId, now));
    }

    method MarkAsRead(id: string)
      modifies this`items, this`stored
      ensures items == MarkRead(old(items), id)
      ensures Synced()
    {
      items := MarkRead(items, id);
      Persist();
    }

    method MarkAllAsRead()
      modifies this`items, this`stored
      ensures items == MarkAllRead(old(items))
      ensures Synced() && UnreadCount() == 0
    {
      MarkAllReadAllRead(items);
      items := MarkAllRead(items);
      Persist();
    }

    method Clear()
      modifies this`items, this`stored
      ensures items == [] && stored == Array([])
      ensures Synced() && UnreadCount() == 0
    {
      items := [];
      Persist();
    }

    method Disconnect()
      requires Valid()
      modifies this`client, this`channel, this`transport
      ensures Valid() && client.None? && channel.None?
      ensures transport == old(transport) + Teardown(old(client), old(channel))
    {
      if channel.Some? && client.Some? {
        transport := transport + [Unsubscribe(channel.value)];
        channel := None;
      }
      if client.Some? {
        transport := transport + [Close];
        client := None;
      }
    }

    /**
     * `connect`, given what it reads from the auth store (`auth.token` and
     * `auth.user?.id`) and the build-time settings for createSocket.
     */
    method Connect(token: Option<string>, userId: Option<int>, env: SocketEnv)
      requires Valid()
      modifies this`client, this`channel, this`transport
      ensures Valid()
      ensures !CanConnect(token, userId) ==>
                client == old(client) && channel == old(channel) && transport == old(transport)
      ensures CanConnect(token, userId) ==>
                && client == Some(CreateSocket(env, token.value))
                && channel == Some(ChannelName(userId.value))
                && transport == old(transport) + Teardown(old(client), old(channel))
                                + [Open(client.value), Subscribe(channel.value)]
    {
      if !CanConnect(token, userId) {
        return;
      }
      Disconnect();
      var config := CreateSocket(env, token.value);
      client := Some(config);
      transport := transport + [Open(config)];
      var name := ChannelName(userId.value);
      channel := Some(name);
      transport := transport + [Subscribe(name)];
    }

    /** The `bind_global` callback. */
    method OnAnyEvent(eventName: string, event: Payload)
      modifies this`items, this`stored
      ensures items == Fallback(old(items), eventName, event)
      ensures FallbackWrites(old(items), eventName, event) ==> Synced()
      ensures !FallbackWrites(old(items), eventName, event) ==> items == old(items) && stored == old(stored)
      ensures Synced() || (items == old(items) && stored == old(stored))
    {
      if FallbackApplies(eventName, event) {
        UpdateInvitationStatus(event.token, event.status);
      }
    }

    /**
     * An event arriving on the subscribed channel: the `bind_global` fallback
     * and then the handler bound to the event's name run. With no channel,
     * nothing is bound and nothing happens.
     */
    method Deliver(eventName: string, event: Payload, freshId: string, now: string)
      modifies this`items, this`stored
      ensures channel.None? ==> items == old(items) && stored == old(stored)
      ensures channel.Some? ==> items == Ingest(old(items), eventName, event, freshId, now)
      ensures channel.Some? && DeliverWrites(old(items), eventName, event, freshId, now) ==> Synced()
      ensures !(channel.Some? && DeliverWrites(old(items), eventName, event, freshId, now)) ==>
                items == old(items) && stored == old(stored)
      ensures Synced() || (items == old(items) && stored == old(stored))
    {
      if channel.None? {
        return;
      }
      FallbackHarmless(items, eventName, event, freshId, now);
      OnAnyEvent(eventName, event);
      if eventName == CREATED_EVENT {
        AddInvitationCreated(event, freshId, now);
      } else if eventName == RESPONDED_EVENT {
        AddInvitationResponded(event, freshId, now);
      } else if eventName == REMOVED_EVENT {
        AddMemberRemoved(event, freshId, now);
      }
    }
  }
}
