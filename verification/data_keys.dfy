/**
 * Storage keys of the mailbox: a recipient's prefix and a notification's key,
 * both sharded two levels deep by the first four characters of an MD5 digest.
 * The hash itself is a parameter: any function returning a fixed-width digest.
 */
module DataKeys {
  import opened Hex

  const RecipientsDirectory: string := "notifications/recipients/recipient/"
  const NotificationsDirectory: string := "notifications/notification/"
  const RecordSuffix: string := ".json"

  /** Length of every recipient prefix. */
  const PrefixLength: nat := 74

  /** Length of every notification key. */
  const KeyLength: nat := 144

  /** Where the recipient digest starts in a prefix: after the directory and `xx/yy/`. */
  const RecipientDigestAt: nat := |RecipientsDirectory| + 6

  /** Where the notification digest starts in a key: after the prefix, the directory and `xx/yy/`. */
  const NotificationDigestAt: nat := PrefixLength + |NotificationsDirectory| + 6

  /** `xx/yy/<digest>`: the shard path of a digest. */
  function Sharded(d: Digest): (p: string)
    ensures |p| == 6 + DigestLength
    ensures p[6..] == d
  {
    d[0..2] + "/" + d[2..4] + "/" + d
  }

  /**
   * `getRecipientDataKeyPrefix` for a recipient whose ID hashes to `h`: a
   * fixed-width string under the recipients directory that carries the
   * digest at a fixed position and ends in `/`.
   */
  function RecipientPrefixOf(h: Digest): (p: string)
    ensures |p| == PrefixLength
    ensures RecipientsDirectory <= p && p[PrefixLength - 1] == '/'
    ensures p[RecipientDigestAt..RecipientDigestAt + DigestLength] == h
  {
    var p := RecipientsDirectory + Sharded(h) + "/";
    assert p[|RecipientsDirectory|..RecipientDigestAt + DigestLength] == Sharded(h);
    p
  }

  /**
   * `getNotificationDataKey` for recipient digest `h` and notification digest
   * `g`: a fixed-width key that begins with the recipient's prefix and carries
   * the notification digest at a fixed position.
   */
  function NotificationKeyOf(h: Digest, g: Digest): (k: string)
    ensures |k| == KeyLength
    ensures k[..PrefixLength] == RecipientPrefixOf(h)
    ensures k[NotificationDigestAt..NotificationDigestAt + DigestLength] == g
  {
    var p := RecipientPrefixOf(h);
    var k := p + NotificationsDirectory + Sharded(g) + RecordSuffix;
    assert k[..PrefixLength] == p;
    assert k[PrefixLength + |NotificationsDirectory|..NotificationDigestAt + DigestLength] == Sharded(g);
    k
  }

  function RecipientPrefix(hash: string -> Digest, recipientID: string): string {
    RecipientPrefixOf(hash(recipientID))
  }

  function NotificationKey(hash: string -> Digest, recipientID: string, notificationID: string): string {
    NotificationKeyOf(hash(recipientID), hash(notificationID))
  }

  /** Different recipient digests give different prefixes. */
  lemma PrefixInjective(h: Digest, h': Digest)
    ensures RecipientPrefixOf(h) == RecipientPrefixOf(h') <==> h == h'
  {
    if RecipientPrefixOf(h) == RecipientPrefixOf(h') {
      var lo, hi := RecipientDigestAt, RecipientDigestAt + DigestLength;
      assert h == RecipientPrefixOf(h)[lo..hi] == RecipientPrefixOf(h')[lo..hi] == h';
    }
  }

  /**
   * A notification key lies under exactly one recipient prefix: the one of its
   * own recipient digest. The prefix has a fixed width, so a shorter or longer
   * digest cannot line up with another recipient's key.
   */
  lemma PrefixOwnsKey(h: Digest, h': Digest, g: Digest)
    ensures RecipientPrefixOf(h') <= NotificationKeyOf(h, g) <==> h' == h
  {
    var k := NotificationKeyOf(h, g);
    if RecipientPrefixOf(h') <= k {
      assert RecipientPrefixOf(h') == k[..PrefixLength];
      PrefixInjective(h, h');
    }
  }

  /** Two keys are equal exactly when both their recipient and notification digests are. */
  lemma NotificationKeyInjective(h: Digest, g: Digest, h': Digest, g': Digest)
    ensures NotificationKeyOf(h, g) == NotificationKeyOf(h', g') <==> h == h' && g == g'
  {
    PrefixInjective(h, h');
  }

  /** `RecipientPrefix(r')` is a prefix of `NotificationKey(r, n)` exactly when `r'` and `r` hash alike. */
  lemma KeyOwnership(hash: string -> Digest, recipientID: string, otherID: string, notificationID: string)
    ensures RecipientPrefix(hash, otherID) <= NotificationKey(hash, recipientID, notificationID)
        <==> hash(otherID) == hash(recipientID)
  {
    PrefixOwnsKey(hash(recipientID), hash(otherID), hash(notificationID));
  }
}
