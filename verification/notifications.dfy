/**
 * The per-recipient notification mailbox over a flat key-value store.
 *
 * The hash (`md5`), the unique token (`uniqid()`), the random number
 * (`rand(0, 999999999)`) and the clock (`time()`) are parameters. The
 * `notificationSend` hook is reduced to whether it exists and whether it
 * prevents the default; the hooks that run are recorded as events.
 */
module Notifications {
  import opened Outcomes
  import opened Hex
  import opened DataKeys
  import opened DataStore
  import opened NotificationRecord

  /** The application's data store: key to stored JSON value. */
  type Store = map<string, StoredValue>

  /** `make($id, $text)`: a new record, with the ID and text set when given. */
  function Make(id: Option<string>, text: Option<string>): (n: Notification)
    ensures Valid(n)
    ensures n.id == id && n.text == text
    ensures n.priority == DefaultPriority && n.status == Unread
    ensures n.dateCreated.None? && n.maxAge == DefaultMaxAge
  {
    var n := New();
    var n := if id.Some? then Assign(n, Id(id)).value else n;
    if text.Some? then Assign(n, Text(text)).value else n
  }

  /** Length of the token `uniqid()` returns. */
  const UniqIdLength: nat := 13

  /** The ID `send` gives a notification that has none: `'n' . uniqid() . 'x' . base_convert(rand, 10, 16)`. */
  function FreshId(uniq: string, rnd: nat): (id: string)
    ensures |id| >= |uniq| + 3 && id[0] == 'n' && id[|uniq| + 1] == 'x'
  {
    "n" + uniq + "x" + ToHex(rnd)
  }

  /** The string hashed for a nullable ID: `md5(null)` hashes the empty string. */
  function IdString(id: Option<string>): string {
    id.UnwrapOr("")
  }

  /** The key `set` writes a record under: derived from the record's own ID. */
  function RecordKey(hash: string -> Digest, recipientID: string, n: Notification): string {
    NotificationKey(hash, recipientID, IdString(n.id))
  }

  /**
   * `set`: stores the record's JSON under the key of its own ID, replacing
   * any previous value there and leaving every other key as it was.
   */
  function Set(hash: string -> Digest, store: Store, recipientID: string, n: Notification): (s: Store)
    ensures s.Keys == store.Keys + {RecordKey(hash, recipientID, n)}
    ensures forall k :: k in store && k != RecordKey(hash, recipientID, n) ==> s[k] == store[k]
    ensures Valid(n) && n.maxAge == DefaultMaxAge ==> Decode(s[RecordKey(hash, recipientID, n)]) == Success(n)
  {
    store[RecordKey(hash, recipientID, n) := ToJson(n)]
  }

  /** The properties a stored value offers to decoding; none for a value that is not a JSON object. */
  function FieldsOf(v: StoredValue): JsonFields {
    match v
    case JsonObject(f) => f
    case NotAnObject => JsonFields(None, None, None, None, None, None)
  }

  /**
   * `constructNotificationFromRawData`: a new record with each present property
   * assigned through its setter, and the initial value where it is absent.
   * `maxAge` is not read back.
   */
  function Decode(v: StoredValue): (r: Result<Notification, Error>)
    ensures var f := FieldsOf(v);
      r.Success? <==>
        (f.priority.Some? ==> ValidPriority(f.priority.value)) && (f.status.Some? ==> ValidStatus(f.status.value))
    ensures var f := FieldsOf(v);
      r.Failure? ==>
        r.error == if f.priority.Some? && !ValidPriority(f.priority.value)
                   then InvalidPriority(f.priority.value) else InvalidStatus(f.status.value)
    ensures var f := FieldsOf(v);
      r.Success? ==>
        && Valid(r.value)
        && r.value.id == f.id && r.value.text == f.text && r.value.dateCreated == f.dateCreated
        && r.value.priority == f.priority.UnwrapOr(DefaultPriority)
        && r.value.status == f.status.UnwrapOr(Unread)
        && r.value.maxAge == DefaultMaxAge
  {
    var f := FieldsOf(v);
    var n := Assign(Make(None, None), Id(f.id)).value;
    var n := Assign(n, Text(f.text)).value;
    var n :- Assign(n, Priority(f.priority.UnwrapOr(DefaultPriority)));
    var n :- Assign(n, Status(f.status.UnwrapOr(Unread)));
    Success(Assign(n, DateCreated(f.dateCreated)).value)
  }

  /** The `notificationSend` hook: absent, or present and either preventing the default or not. */
  datatype SendHook = Absent | Present(preventDefault: bool)

  predicate Vetoes(hook: SendHook) {
    hook.Present? && hook.preventDefault
  }

  /** What `send` does that is observable outside the store value: hooks run and keys written. */
  datatype Event =
    | SendHookRan(sending: Notification)
    | Written(key: string)
    | SentHookRan(sent: Notification)

  /** The store after `send`, the caller's record as `send` left it, and the events in order. */
  datatype Sent = Sent(store: Store, notification: Notification, events: seq<Event>)

  /**
   * `send`: fills in a missing ID and creation time, lets the
   * `notificationSend` hook veto, and otherwise stores the record and runs
   * `notificationSent`.
   */
  function Send(hash: string -> Digest, store: Store, recipientID: string, n: Notification,
                hook: SendHook, uniq: string, rnd: nat, now: int): (o: Sent)
    ensures o.notification.id == if n.id.Some? then n.id else Some(FreshId(uniq, rnd))
    ensures o.notification.dateCreated == if n.dateCreated.Some? then n.dateCreated else Some(now)
    ensures && o.notification.text == n.text && o.notification.priority == n.priority
            && o.notification.status == n.status && o.notification.maxAge == n.maxAge
    ensures hook.Present? <==> |o.events| > 0 && o.events[0] == SendHookRan(o.notification)
    ensures |o.events| == if Vetoes(hook) then 1 else if hook.Present? then 3 else 2
    ensures Vetoes(hook) ==>
      && o.store == store
      && forall i :: 0 <= i < |o.events| ==> !o.events[i].SentHookRan? && !o.events[i].Written?
    ensures !Vetoes(hook) ==>
      var key := NotificationKey(hash, recipientID, o.notification.id.value);
      && o.store == store[key := ToJson(o.notification)]
      && |o.events| >= 2
      && o.events[|o.events| - 2] == Written(key)
      && o.events[|o.events| - 1] == SentHookRan(o.notification)
      && forall i :: 0 <= i < |o.events| - 1 ==> !o.events[i].SentHookRan?
  {
    var id := if n.id.None? then Some(FreshId(uniq, rnd)) else n.id;
    var dateCreated := if n.dateCreated.None? then Some(now) else n.dateCreated;
    var m := n.(id := id, dateCreated := dateCreated);
    var before := if hook.Present? then [SendHookRan(m)] else [];
    if Vetoes(hook) then
      Sent(store, m, before)
    else
      Sent(Set(hash, store, recipientID, m), m, before + [Written(RecordKey(hash, recipientID, m)), SentHookRan(m)])
  }

  /** `get`: null when nothing is stored under the key, else the decoded record (which may throw). */
  function Get(hash: string -> Digest, store: Store, recipientID: string, notificationID: string)
    : (r: Result<Option<Notification>, Error>)
    ensures r == Success(None) <==> NotificationKey(hash, recipientID, notificationID) !in store
    ensures r.Failure? ==>
      var key := NotificationKey(hash, recipientID, notificationID);
      key in store && Decode(store[key]).Failure?
    ensures r.Success? && r.value.Some? ==> Valid(r.value.value) && r.value.value.maxAge == DefaultMaxAge
    ensures var key := NotificationKey(hash, recipientID, notificationID);
      key in store ==>
        r == match Decode(store[key])
             case Success(n) => Success(Some(n))
             case Failure(e) => Failure(e)
  {
    var key := NotificationKey(hash, recipientID, notificationID);
    if key !in store then Success(None)
    else
      var n :- Decode(store[key]);
      Success(Some(n))
  }

  /**
   * `setStatus`: reads the record and, if there is one, writes it back with
   * the new status, unconditionally, under the key of the ID it decoded to.
   */
  function SetStatus(hash: string -> Digest, store: Store, recipientID: string, notificationID: string,
                     status: string): (r: Result<Store, Error>)
    requires ValidStatus(status)
    ensures NotificationKey(hash, recipientID, notificationID) !in store ==> r == Success(store)
    ensures r.Failure? <==> Get(hash, store, recipientID, notificationID).Failure?
    ensures r.Success? ==> r.value.Keys >= store.Keys
    ensures r.Success? && NotificationKey(hash, recipientID, notificationID) in store ==>
      var d := Decode(store[NotificationKey(hash, recipientID, notificationID)]).value;
      r.value == store[RecordKey(hash, recipientID, d) := ToJson(d.(status := status))]
  {
    var found :- Get(hash, store, recipientID, notificationID);
    match found
    case None => Success(store)
    case Some(n) =>
      var m := Assign(n, Status(status)).value;
      Success(Set(hash, store, recipientID, m))
  }

  /** The record stored at the key of `notificationID` decodes to an ID that hashes the same. */
  predicate SelfKeyed(hash: string -> Digest, store: Store, recipientID: string, notificationID: string) {
    var key := NotificationKey(hash, recipientID, notificationID);
    && key in store
    && Decode(store[key]).Success?
    && hash(IdString(Decode(store[key]).value.id)) == hash(notificationID)
  }

  /** `markAsRead`. */
  function MarkAsRead(hash: string -> Digest, store: Store, recipientID: string, notificationID: string)
    : (r: Result<Store, Error>)
    ensures NotificationKey(hash, recipientID, notificationID) !in store ==> r == Success(store)
    ensures r.Failure? <==> Get(hash, store, recipientID, notificationID).Failure?
    ensures SelfKeyed(hash, store, recipientID, notificationID) ==>
      && r.Success?
      && var d := Decode(store[NotificationKey(hash, recipientID, notificationID)]).value;
         Get(hash, r.value, recipientID, notificationID) == Success(Some(d.(status := Read)))
  {
    SetStatus(hash, store, recipientID, notificationID, Read)
  }

  /** `markAsUnread`. */
  function MarkAsUnread(hash: string -> Digest, store: Store, recipientID: string, notificationID: string)
    : (r: Result<Store, Error>)
    ensures NotificationKey(hash, recipientID, notificationID) !in store ==> r == Success(store)
    ensures r.Failure? <==> Get(hash, store, recipientID, notificationID).Failure?
    ensures SelfKeyed(hash, store, recipientID, notificationID) ==>
      && r.Success?
      && var d := Decode(store[NotificationKey(hash, recipientID, notificationID)]).value;
         Get(hash, r.value, recipientID, notificationID) == Success(Some(d.(status := Unread)))
  {
    SetStatus(hash, store, recipientID, notificationID, Unread)
  }

  /** `delete`: removes the key if present; an absent key is not an error. */
  function Delete(hash: string -> Digest, store: Store, recipientID: string, notificationID: string): (s: Store)
    ensures Get(hash, s, recipientID, notificationID) == Success(None)
    ensures s.Keys == store.Keys - {NotificationKey(hash, recipientID, notificationID)}
    ensures forall k :: k in s ==> s[k] == store[k]
  {
    store - {NotificationKey(hash, recipientID, notificationID)}
  }

  /**
   * The body of the `getList` loop: decodes the records of `items` in the
   * given order and throws the error of the first one that fails.
   */
  method DecodeInOrder(items: Store, order: seq<string>) returns (list: Result<seq<Notification>, Error>)
    requires forall i :: 0 <= i < |order| ==> order[i] in items
    ensures list.Success? <==> forall i :: 0 <= i < |order| ==> Decode(items[order[i]]).Success?
    ensures list.Failure? ==>
      exists i :: && 0 <= i < |order| && Decode(items[order[i]]) == Failure(list.error)
                  && forall j :: 0 <= j < i ==> Decode(items[order[j]]).Success?
    ensures list.Success? ==>
      |list.value| == |order| && forall i :: 0 <= i < |order| ==> Decode(items[order[i]]) == Success(list.value[i])
  {
    var acc: seq<Notification> := [];
    for i := 0 to |order|
      invariant |acc| == i
      invariant forall j :: 0 <= j < i ==> Decode(items[order[j]]) == Success(acc[j])
    {
      var d := Decode(items[order[i]]);
      if d.Failure? {
        return Failure(d.error);
      }
      acc := acc + [d.value];
    }
    list := Success(acc);
  }

  /** Every record under the recipient's prefix decodes without throwing. */
  predicate RecipientDecodable(hash: string -> Digest, store: Store, recipientID: string) {
    forall k :: k in store && RecipientPrefix(hash, recipientID) <= k ==> Decode(store[k]).Success?
  }

  /**
   * `getList`: decodes every record under the recipient's prefix, in the
   * store's enumeration order (any order here), and throws the error of the
   * first record that fails to decode. `keys` names the record each item
   * came from.
   */
  method GetList(hash: string -> Digest, store: Store, recipientID: string)
    returns (list: Result<seq<Notification>, Error>, ghost keys: seq<string>)
    ensures list.Success? <==> RecipientDecodable(hash, store, recipientID)
    ensures list.Failure? ==>
      exists k :: k in store && RecipientPrefix(hash, recipientID) <= k && Decode(store[k]) == Failure(list.error)
    ensures list.Success? ==> |list.value| == |Scan(store, RecipientPrefix(hash, recipientID))|
    ensures list.Success? ==>
      && |keys| == |list.value|
      && (forall k :: k in keys <==> k in store && RecipientPrefix(hash, recipientID) <= k)
      && (forall i, j :: 0 <= i < j < |keys| ==> keys[i] != keys[j])
      && forall i :: 0 <= i < |keys| ==> keys[i] in store && Decode(store[keys[i]]) == Success(list.value[i])
  {
    var prefix := RecipientPrefix(hash, recipientID);
    var items := Scan(store, prefix);
    var order := Enumerate(items.Keys);
    list := DecodeInOrder(items, order);
    keys := order;
    if list.Failure? {
      var i :| 0 <= i < |order| && Decode(items[order[i]]) == Failure(list.error);
      assert order[i] in store && prefix <= order[i];
    } else {
      forall k | k in store && prefix <= k
        ensures Decode(store[k]).Success?
      {
        assert k in items;
        var j :| 0 <= j < |order| && order[j] == k;
      }
      assert |items.Keys| == |items|;
    }
  }

  /** A stored value `getUnreadCount` counts: a JSON object whose status is exactly `unread`. */
  function CountsAsUnread(v: StoredValue): (counted: bool)
    ensures counted && Decode(v).Success? ==> Decode(v).value.status == Unread
    ensures Decode(v).Success? && Decode(v).value.status == Unread && !counted ==> FieldsOf(v).status.None?
  {
    v.JsonObject? && v.fields.status == Some(Unread)
  }

  /** The recipient's keys whose stored status is exactly `unread`. */
  function UnreadKeys(hash: string -> Digest, store: Store, recipientID: string): set<string> {
    set k | k in store && RecipientPrefix(hash, recipientID) <= k && CountsAsUnread(store[k])
  }

  /** The keys among `ks` whose value in `items` counts as unread. */
  ghost function UnreadAmong(items: Store, ks: set<string>): set<string> {
    set k | k in ks && k in items && CountsAsUnread(items[k])
  }

  /** The body of the `getUnreadCount` loop: counts the values of `items` that count as unread. */
  method CountUnread(items: Store) returns (count: nat)
    ensures count == |UnreadAmong(items, items.Keys)|
  {
    var pending := items.Keys;
    ghost var seen: set<string> := {};
    count := 0;
    while pending != {}
      invariant pending + seen == items.Keys && pending !! seen
      invariant count == |UnreadAmong(items, seen)|
      decreases pending
    {
      var k :| k in pending;
      if CountsAsUnread(items[k]) {
        assert UnreadAmong(items, seen + {k}) == UnreadAmong(items, seen) + {k};
        count := count + 1;
      } else {
        assert UnreadAmong(items, seen + {k}) == UnreadAmong(items, seen);
      }
      pending := pending - {k};
      seen := seen + {k};
    }
  }

  /** `getUnreadCount`: how many of the recipient's stored records have status exactly `unread`. */
  method GetUnreadCount(hash: string -> Digest, store: Store, recipientID: string) returns (count: nat)
    ensures count == |UnreadKeys(hash, store, recipientID)|
  {
    var items := Scan(store, RecipientPrefix(hash, recipientID));
    count := CountUnread(items);
    assert UnreadAmong(items, items.Keys) == UnreadKeys(hash, store, recipientID);
  }
}
