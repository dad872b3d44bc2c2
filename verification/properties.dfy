/** Properties that relate several mailbox operations to each other. */
module MailboxProperties {
  import opened Outcomes
  import opened Hex
  import opened DataKeys
  import opened DataStore
  import opened NotificationRecord
  import opened Notifications

  /** Decoding what `toJSON` wrote restores the record exactly when it is valid and `maxAge` is at its initial value. */
  lemma DecodeToJsonRoundTrip(n: Notification)
    ensures Decode(ToJson(n)) == Success(n) <==> Valid(n) && n.maxAge == DefaultMaxAge
  {
  }

  /** Distinct (`uniqid()`, random number) pairs give distinct generated IDs. */
  lemma FreshIdInjective(uniq1: string, rnd1: nat, uniq2: string, rnd2: nat)
    requires |uniq1| == UniqIdLength && |uniq2| == UniqIdLength
    ensures FreshId(uniq1, rnd1) == FreshId(uniq2, rnd2) <==> uniq1 == uniq2 && rnd1 == rnd2
  {
    var a, b := FreshId(uniq1, rnd1), FreshId(uniq2, rnd2);
    if a == b {
      assert a == "n" + uniq1 + "x" + ToHex(rnd1);
      assert b == "n" + uniq2 + "x" + ToHex(rnd2);
      assert uniq1 == a[1..14] == b[1..14] == uniq2;
      assert ToHex(rnd1) == a[15..] == b[15..] == ToHex(rnd2);
      ToHexInjective(rnd1, rnd2);
    }
  }

  /** A sent record that round-trips through JSON is read back by `get` as the caller's final record. */
  lemma GetAfterSend(hash: string -> Digest, store: Store, recipientID: string, n: Notification,
                     hook: SendHook, uniq: string, rnd: nat, now: int)
    requires !Vetoes(hook) && Valid(n) && n.maxAge == DefaultMaxAge
    ensures var o := Send(hash, store, recipientID, n, hook, uniq, rnd, now);
      && o.notification.id.Some?
      && Get(hash, o.store, recipientID, o.notification.id.value) == Success(Some(o.notification))
  {
    var o := Send(hash, store, recipientID, n, hook, uniq, rnd, now);
    DecodeToJsonRoundTrip(o.notification);
  }

  /** A scan of one recipient's prefix finds another recipient's key only when the two IDs hash alike. */
  lemma ScanSeesOnlyOwnRecords(hash: string -> Digest, store: Store, recipientID: string, otherID: string,
                               notificationID: string)
    ensures var key := NotificationKey(hash, otherID, notificationID);
      key in Scan(store, RecipientPrefix(hash, recipientID)) <==> key in store && hash(otherID) == hash(recipientID)
  {
    KeyOwnership(hash, otherID, recipientID, notificationID);
  }

  /** Sending to one recipient leaves every other recipient's records and unread set as they were. */
  lemma SendLeavesOtherRecipients(hash: string -> Digest, store: Store, recipientID: string, otherID: string,
                                  n: Notification, hook: SendHook, uniq: string, rnd: nat, now: int)
    requires hash(otherID) != hash(recipientID)
    ensures var o := Send(hash, store, recipientID, n, hook, uniq, rnd, now);
      && Scan(o.store, RecipientPrefix(hash, otherID)) == Scan(store, RecipientPrefix(hash, otherID))
      && UnreadKeys(hash, o.store, otherID) == UnreadKeys(hash, store, otherID)
  {
    var o := Send(hash, store, recipientID, n, hook, uniq, rnd, now);
    if !Vetoes(hook) {
      KeyOwnership(hash, recipientID, otherID, o.notification.id.value);
    }
  }

  /** After a send that is not vetoed, the record's key is unread exactly when the sent status is `unread`. */
  lemma SendUpdatesUnreadKeys(hash: string -> Digest, store: Store, recipientID: string, n: Notification,
                              hook: SendHook, uniq: string, rnd: nat, now: int)
    requires !Vetoes(hook)
    ensures var o := Send(hash, store, recipientID, n, hook, uniq, rnd, now);
      var key := NotificationKey(hash, recipientID, o.notification.id.value);
      UnreadKeys(hash, o.store, recipientID)
        == if n.status == Unread then UnreadKeys(hash, store, recipientID) + {key}
           else UnreadKeys(hash, store, recipientID) - {key}
  {
    var o := Send(hash, store, recipientID, n, hook, uniq, rnd, now);
    KeyOwnership(hash, recipientID, recipientID, o.notification.id.value);
  }

  /**
   * When the stored record's ID hashes like the one it was looked up by, a
   * status change rewrites that same key, with the new status, and nothing else.
   */
  lemma SetStatusRewritesOwnKey(hash: string -> Digest, store: Store, recipientID: string, notificationID: string,
                                status: string)
    requires ValidStatus(status) && SelfKeyed(hash, store, recipientID, notificationID)
    ensures var key := NotificationKey(hash, recipientID, notificationID);
      var r := SetStatus(hash, store, recipientID, notificationID, status);
      && r.Success?
      && r.value.Keys == store.Keys
      && r.value[key] == ToJson(Decode(store[key]).value.(status := status))
      && forall k :: k in store && k != key ==> r.value[k] == store[k]
  {
  }

  /** Under the same condition, the key leaves or joins the unread set according to the new status. */
  lemma SetStatusUpdatesUnreadKeys(hash: string -> Digest, store: Store, recipientID: string, notificationID: string,
                                   status: string)
    requires ValidStatus(status) && SelfKeyed(hash, store, recipientID, notificationID)
    ensures var key := NotificationKey(hash, recipientID, notificationID);
      var r := SetStatus(hash, store, recipientID, notificationID, status);
      && r.Success?
      && UnreadKeys(hash, r.value, recipientID)
           == if status == Unread then UnreadKeys(hash, store, recipientID) + {key}
              else UnreadKeys(hash, store, recipientID) - {key}
  {
    KeyOwnership(hash, recipientID, recipientID, notificationID);
  }

  /**
   * The write follows the decoded ID: when it hashes differently from the ID
   * the record was looked up by, the looked-up record is left as it was and
   * the rewritten copy lands under another key.
   */
  lemma SetStatusWritesUnderDecodedId(hash: string -> Digest, store: Store, recipientID: string, notificationID: string,
                                      status: string)
    requires ValidStatus(status)
    requires NotificationKey(hash, recipientID, notificationID) in store
    requires Decode(store[NotificationKey(hash, recipientID, notificationID)]).Success?
    requires hash(IdString(Decode(store[NotificationKey(hash, recipientID, notificationID)]).value.id)) != hash(notificationID)
    ensures var key := NotificationKey(hash, recipientID, notificationID);
      var d := Decode(store[key]).value;
      var r := SetStatus(hash, store, recipientID, notificationID, status);
      && r.Success?
      && RecordKey(hash, recipientID, d) != key
      && r.value[key] == store[key]
      && r.value[RecordKey(hash, recipientID, d)] == ToJson(d.(status := status))
  {
    var key := NotificationKey(hash, recipientID, notificationID);
    var d := Decode(store[key]).value;
    NotificationKeyInjective(hash(recipientID), hash(notificationID), hash(recipientID), hash(IdString(d.id)));
  }

  /**
   * The status write is unconditional: when the stored document's `maxAge` is
   * not the initial value, even a write of the status it already has changes
   * the store, because `maxAge` is not read back.
   */
  lemma SetStatusAlwaysRewrites(hash: string -> Digest, store: Store, recipientID: string, notificationID: string,
                                status: string)
    requires ValidStatus(status) && SelfKeyed(hash, store, recipientID, notificationID)
    requires FieldsOf(store[NotificationKey(hash, recipientID, notificationID)]).maxAge != Some(DefaultMaxAge)
    ensures var r := SetStatus(hash, store, recipientID, notificationID, status);
      r.Success? && r.value != store
  {
    var key := NotificationKey(hash, recipientID, notificationID);
    var r := SetStatus(hash, store, recipientID, notificationID, status);
    assert FieldsOf(r.value[key]).maxAge == Some(DefaultMaxAge);
  }

  /** Setting a status twice in a row leaves the store as setting it once. */
  lemma SetStatusIdempotent(hash: string -> Digest, store: Store, recipientID: string, notificationID: string,
                            status: string)
    requires ValidStatus(status)
    requires SetStatus(hash, store, recipientID, notificationID, status).Success?
    ensures var once := SetStatus(hash, store, recipientID, notificationID, status);
      SetStatus(hash, once.value, recipientID, notificationID, status) == once
  {
    var key := NotificationKey(hash, recipientID, notificationID);
    var once := SetStatus(hash, store, recipientID, notificationID, status);
    if key in store {
      var d := Decode(store[key]).value;
      var m := d.(status := status);
      var w := RecordKey(hash, recipientID, d);
      assert once.value == store[w := ToJson(m)];
      if w == key {
        DecodeToJsonRoundTrip(m);
        assert Decode(once.value[key]).value == m;
        assert m.(status := status) == m;
        assert RecordKey(hash, recipientID, m) == w;
        assert once.value[w := ToJson(m)] == once.value;
      } else {
        assert once.value[key] == store[key];
        assert SetStatus(hash, once.value, recipientID, notificationID, status).value == once.value[w := ToJson(m)];
        assert once.value[w := ToJson(m)] == once.value;
      }
    }
  }

  /** A record without a `status` property reads back as unread but is not counted as unread. */
  lemma MissingStatusIsNotCounted(hash: string -> Digest, store: Store, recipientID: string, notificationID: string)
    requires NotificationKey(hash, recipientID, notificationID) in store
    requires FieldsOf(store[NotificationKey(hash, recipientID, notificationID)]).status.None?
    requires var p := FieldsOf(store[NotificationKey(hash, recipientID, notificationID)]).priority;
      p.Some? ==> ValidPriority(p.value)
    ensures var r := Get(hash, store, recipientID, notificationID);
      r.Success? && r.value.Some? && r.value.value.status == Unread
    ensures NotificationKey(hash, recipientID, notificationID) !in UnreadKeys(hash, store, recipientID)
  {
  }

  /** Sending a valid record, to anyone, keeps every recipient's records decodable. */
  lemma SendKeepsDecodable(hash: string -> Digest, store: Store, recipientID: string, senderTo: string,
                           n: Notification, hook: SendHook, uniq: string, rnd: nat, now: int)
    requires Valid(n) && RecipientDecodable(hash, store, recipientID)
    ensures RecipientDecodable(hash, Send(hash, store, senderTo, n, hook, uniq, rnd, now).store, recipientID)
  {
  }

  /** Status changes and deletions keep every recipient's records decodable. */
  lemma StatusAndDeleteKeepDecodable(hash: string -> Digest, store: Store, recipientID: string, ownerID: string,
                                     notificationID: string, status: string)
    requires ValidStatus(status) && RecipientDecodable(hash, store, recipientID)
    ensures var r := SetStatus(hash, store, ownerID, notificationID, status);
      r.Success? ==> RecipientDecodable(hash, r.value, recipientID)
    ensures RecipientDecodable(hash, Delete(hash, store, ownerID, notificationID), recipientID)
  {
  }

  /** In a decodable mailbox neither `get` nor a status change throws. */
  lemma DecodableNeverThrows(hash: string -> Digest, store: Store, recipientID: string, notificationID: string)
    requires RecipientDecodable(hash, store, recipientID)
    ensures Get(hash, store, recipientID, notificationID).Success?
    ensures MarkAsRead(hash, store, recipientID, notificationID).Success?
    ensures MarkAsUnread(hash, store, recipientID, notificationID).Success?
  {
    KeyOwnership(hash, recipientID, recipientID, notificationID);
  }

  /** Send, read, mark read, mark unread, delete: each step is seen by the next `get`. */
  lemma BasicsScenario(hash: string -> Digest, store: Store, uniq: string, rnd: nat, now: int)
    ensures
      var o := Send(hash, store, "recipient1", Make(Some("id1"), Some("Hello 1")), Absent, uniq, rnd, now);
      && Get(hash, o.store, "recipient1", "id1") == Success(Some(o.notification))
      && o.notification.status == Unread
      && var read := MarkAsRead(hash, o.store, "recipient1", "id1");
      && read.Success?
      && Get(hash, read.value, "recipient1", "id1") == Success(Some(o.notification.(status := Read)))
      && var unread := MarkAsUnread(hash, read.value, "recipient1", "id1");
      && unread.Success?
      && Get(hash, unread.value, "recipient1", "id1") == Success(Some(o.notification))
      && Get(hash, Delete(hash, unread.value, "recipient1", "id1"), "recipient1", "id1") == Success(None)
  {
    var o := Send(hash, store, "recipient1", Make(Some("id1"), Some("Hello 1")), Absent, uniq, rnd, now);
    GetAfterSend(hash, store, "recipient1", Make(Some("id1"), Some("Hello 1")), Absent, uniq, rnd, now);
    var read := MarkAsRead(hash, o.store, "recipient1", "id1");
    assert read.Success?;
    var unread := MarkAsUnread(hash, read.value, "recipient1", "id1");
    assert SelfKeyed(hash, read.value, "recipient1", "id1");
  }

  /** Two recipients with differently hashing IDs each see only their own record. */
  lemma GetListScenario(hash: string -> Digest, uniq: string, rnd: nat, now: int)
    requires hash("recipient1") != hash("recipient2")
    ensures
      var first := Send(hash, map[], "recipient1", Make(Some("id1"), Some("Hello 1")), Absent, uniq, rnd, now);
      var second := Send(hash, first.store, "recipient2", Make(Some("id2"), Some("Hello 2")), Absent, uniq, rnd, now);
      var listed := Scan(second.store, RecipientPrefix(hash, "recipient1"));
      && listed.Keys == {NotificationKey(hash, "recipient1", "id1")}
      && Decode(listed[NotificationKey(hash, "recipient1", "id1")]) == Success(first.notification)
  {
    var first := Send(hash, map[], "recipient1", Make(Some("id1"), Some("Hello 1")), Absent, uniq, rnd, now);
    SendLeavesOtherRecipients(hash, first.store, "recipient2", "recipient1",
                              Make(Some("id2"), Some("Hello 2")), Absent, uniq, rnd, now);
    KeyOwnership(hash, "recipient1", "recipient1", "id1");
    DecodeToJsonRoundTrip(first.notification);
  }

  /** Unread count over two sends and a read/unread toggle: 0, 1, 2, 1, 2. */
  lemma UnreadCountScenario(hash: string -> Digest, uniq: string, rnd: nat, now: int)
    requires hash("id1") != hash("id2")
    ensures
      var first := Send(hash, map[], "recipient1", Make(Some("id1"), Some("Hello 1")), Absent, uniq, rnd, now);
      var second := Send(hash, first.store, "recipient1", Make(Some("id2"), Some("Hello 2")), Absent, uniq, rnd, now);
      var read := MarkAsRead(hash, second.store, "recipient1", "id1");
      && |UnreadKeys(hash, map[], "recipient1")| == 0
      && |UnreadKeys(hash, first.store, "recipient1")| == 1
      && |UnreadKeys(hash, second.store, "recipient1")| == 2
      && read.Success?
      && |UnreadKeys(hash, read.value, "recipient1")| == 1
      && var unread := MarkAsUnread(hash, read.value, "recipient1", "id1");
      && unread.Success?
      && |UnreadKeys(hash, unread.value, "recipient1")| == 2
  {
    var k1 := NotificationKey(hash, "recipient1", "id1");
    var k2 := NotificationKey(hash, "recipient1", "id2");
    NotificationKeyInjective(hash("recipient1"), hash("id1"), hash("recipient1"), hash("id2"));
    var n1 := Make(Some("id1"), Some("Hello 1"));
    var n2 := Make(Some("id2"), Some("Hello 2"));
    var first := Send(hash, map[], "recipient1", n1, Absent, uniq, rnd, now);
    SendUpdatesUnreadKeys(hash, map[], "recipient1", n1, Absent, uniq, rnd, now);
    assert UnreadKeys(hash, first.store, "recipient1") == {k1};
    var second := Send(hash, first.store, "recipient1", n2, Absent, uniq, rnd, now);
    SendUpdatesUnreadKeys(hash, first.store, "recipient1", n2, Absent, uniq, rnd, now);
    assert UnreadKeys(hash, second.store, "recipient1") == {k1, k2};
    assert SelfKeyed(hash, second.store, "recipient1", "id1");
    SetStatusUpdatesUnreadKeys(hash, second.store, "recipient1", "id1", Read);
    var read := MarkAsRead(hash, second.store, "recipient1", "id1");
    assert UnreadKeys(hash, read.value, "recipient1") == {k2};
    SetStatusRewritesOwnKey(hash, second.store, "recipient1", "id1", Read);
    assert SelfKeyed(hash, read.value, "recipient1", "id1");
    SetStatusUpdatesUnreadKeys(hash, read.value, "recipient1", "id1", Unread);
    var unread := MarkAsUnread(hash, read.value, "recipient1", "id1");
    assert UnreadKeys(hash, unread.value, "recipient1") == {k2, k1};
  }
}
