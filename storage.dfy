/**
 * The single storage slot of the notification cache (`loadFromStorage` and
 * `persist` in src/stores/notifications.ts). The slot is described by what
 * `JSON.parse` would make of its text; `persist` stores the snapshot of the
 * first MAX_ITEMS records, which JSON turns back into the same entries.
 */
module Storage {
  import opened Js
  import opened Registry

  /**
   * One element of the stored array. A `null` element is kept apart because
   * reading a field of it throws; any other non-object element reads as a
   * Record whose fields are all missing. A missing or falsy string field is "".
   */
  datatype Entry =
    | NullEntry
    | Record(id: string, kind: string, title: string, message: string,
             payload: Payload, createdAt: string, read: Value)

  /**
   * The slot as `loadFromStorage` sees it: no item (or an empty string), text
   * that is not JSON, JSON that is not an array, or an array of entries.
   */
  datatype Slot = Unset | Unparsable | NotArray | Array(entries: seq<Entry>)

  const DEFAULT_KIND := "info"
  const DEFAULT_TITLE := "通知"

  /** The normalising `map` callback of `loadFromStorage`, for the entry at index `i`. */
  function Normalise(e: Entry, i: nat, freshId: nat -> string, now: nat -> string): (r: NotificationItem)
    requires e.Record?
    ensures r.id == (if e.id != "" then e.id else freshId(i))
    ensures r.kind == (if e.kind != "" then e.kind else DEFAULT_KIND) && r.kind != ""
    ensures r.title == (if e.title != "" then e.title else DEFAULT_TITLE) && r.title != ""
    ensures r.message == e.message
    ensures r.payload == e.payload
    ensures r.createdAt == (if e.createdAt != "" then e.createdAt else now(i))
    ensures r.read <==> Truthy(e.read)
  {
    NotificationItem(
      OrText(e.id, freshId(i)),
      OrText(e.kind, DEFAULT_KIND),
      OrText(e.title, DEFAULT_TITLE),
      OrText(e.message, ""),
      e.payload,
      OrText(e.createdAt, now(i)),
      Truthy(e.read))
  }

  predicate NoNullEntry(entries: seq<Entry>)
  {
    forall i :: 0 <= i < |entries| ==> entries[i].Record?
  }

  /**
   * `loadFromStorage`: total. Anything but an array of non-null entries gives the
   * empty list; an array gives one normalised record per entry, in order.
   * `freshId(i)` and `now(i)` are what makeId() and the clock return for entry i.
   */
  function Load(slot: Slot, freshId: nat -> string, now: nat -> string): (r: seq<NotificationItem>)
    ensures !(slot.Array? && NoNullEntry(slot.entries)) ==> r == []
    ensures slot.Array? && NoNullEntry(slot.entries) ==>
              |r| == |slot.entries| &&
              forall i :: 0 <= i < |r| ==> r[i] == Normalise(slot.entries[i], i, freshId, now)
    ensures forall i :: 0 <= i < |r| ==> r[i].kind != "" && r[i].title != ""
  {
    match slot
    case Array(entries) =>
      if NoNullEntry(entries) then
        seq(|entries|, i requires 0 <= i < |entries| => Normalise(entries[i], i, freshId, now))
      else []
    case _ => []
  }

  /** What `JSON.stringify` writes for one record, read back by `JSON.parse`. */
  function Snapshot(item: NotificationItem): (e: Entry)
    ensures e.Record?
    ensures e.id == item.id && e.kind == item.kind && e.title == item.title
    ensures e.message == item.message && e.payload == item.payload && e.createdAt == item.createdAt
    ensures Truthy(e.read) <==> item.read
  {
    Record(item.id, item.kind, item.title, item.message, item.payload, item.createdAt, Bool(item.read))
  }

  /** The slot after `persist(items)`: the first MAX_ITEMS records, in order. */
  function Persisted(items: seq<NotificationItem>): (slot: Slot)
    ensures slot.Array? && NoNullEntry(slot.entries)
    ensures |slot.entries| == Min(MAX_ITEMS, |items|) && |slot.entries| <= MAX_ITEMS
    ensures forall i :: 0 <= i < |slot.entries| ==> slot.entries[i] == Snapshot(items[i])
  {
    var kept := Bounded(items);
    Array(seq(|kept|, i requires 0 <= i < |kept| => Snapshot(kept[i])))
  }

  /** A record that no default of `loadFromStorage` would replace. */
  predicate Complete(item: NotificationItem)
  {
    item.id != "" && item.kind != "" && item.title != "" && item.createdAt != ""
  }

  /**
   * Persisting and loading again gives back the first MAX_ITEMS records, for
   * records whose fields were all present; in general, the loaded records agree
   * with the persisted ones everywhere except where a default filled a blank field.
   */
  lemma LoadAfterPersist(items: seq<NotificationItem>, freshId: nat -> string, now: nat -> string)
    ensures var r := Load(Persisted(items), freshId, now);
            && |r| == Min(MAX_ITEMS, |items|)
            && forall i :: 0 <= i < |r| ==>
                 r[i].message == items[i].message && r[i].payload == items[i].payload &&
                 r[i].read == items[i].read &&
                 (Complete(items[i]) ==> r[i] == items[i])
    ensures (forall i :: 0 <= i < |items| ==> Complete(items[i])) ==>
              Load(Persisted(items), freshId, now) == Bounded(items)
  {
    var r := Load(Persisted(items), freshId, now);
    if forall i :: 0 <= i < |items| ==> Complete(items[i]) {
      var b := Bounded(items);
      assert |r| == |b|;
      forall i | 0 <= i < |r|
        ensures r[i] == b[i]
      {
        assert Complete(items[i]);
      }
    }
  }
}
