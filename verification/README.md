# Notifications mailbox — Dafny model

A model of the per-recipient notification mailbox of the Bear Framework
notifications addon: the `Notifications` utility class and the
`Notification` record with its validating setters.

The mailbox keeps one JSON document per notification in the application's
flat key-value data store. The key of a document is derived from the MD5
digests of the recipient ID and the notification ID, sharded two levels deep:

    notifications/recipients/recipient/<h0h1>/<h2h3>/<h>/notifications/notification/<g0g1>/<g2g3>/<g>.json

All of a recipient's documents share the prefix up to and including `<h>/`,
so listing and counting are prefix scans of the store.

Everything is pure. The store is a `map<string, StoredValue>`. `md5` is a
parameter `hash: string -> Digest` (a digest is 32 lower-case hex
characters). `uniqid()`, `rand(0, 999999999)` and `time()` are parameters
`uniq`, `rnd` and `now`. The `notificationSend` hook is a `SendHook` value
(absent, or present and either preventing the default or not). `send`
returns the new store, the record as the caller sees it afterwards, and the
ordered trace of hooks run and keys written. A thrown exception is a
`Result` failure.

Modules, leaves first:

- `Outcomes` (`outcomes.dfy`): `Option` (PHP null) and `Result` (exception or value).
- `Hex` (`hex.dfy`): digests, and `base_convert(v, 10, 16)` as `ToHex`.
- `DataKeys` (`data_keys.dfy`): `getRecipientDataKeyPrefix`, `getNotificationDataKey`, and why a prefix scan sees only records of recipients whose IDs hash alike.
- `DataStore` (`data_store.dfy`): the prefix filter of the store list, and the store's enumeration order.
- `NotificationRecord` (`notification.dfy`): the record, its initial values, the setters and `toJSON`.
- `Notifications` (`notifications.dfy`): `make`, `send`, `set`, `get`, `constructNotificationFromRawData`, `markAsRead`/`markAsUnread`/`setStatus`, `delete`, `getList`, `getUnreadCount`.
- `MailboxProperties` (`properties.dfy`): properties that relate several operations.

Behaviour of the code that a reader of the addon's documentation might not expect, modelled as the code has it:

- `setStatus` writes the record back unconditionally. It does not skip the write when the status is unchanged.
- `maxAge` has no initialiser and is not read back by `constructNotificationFromRawData`. So a rewrite by `setStatus` resets it.
- Reading a stored record goes through the validating setters. A stored priority outside 1..5, or a status other than `read`/`unread`, makes `get`, `getList`, `markAsRead` and `markAsUnread` fail.
- `set` keys the record by its own (decoded) ID, not by the ID it was looked up by. A record whose stored `id` hashes differently from the ID it was looked up by (a missing `id` hashes as the empty string) is rewritten under another key (`SetStatusWritesUnderDecodedId`).
- `getUnreadCount` counts only documents whose stored `status` is exactly `unread`. A document with no `status` and no invalid priority reads back as unread through `get` but is not counted.
- Type replacement, expiry, `deleteAll`, `deleteOld`, titles and subscriptions do not exist in this version of the code.

## Model

| member | source | states |
|---|---|---|
| Hex.ToHex | classes/Notifications.php:61 | `base_convert(v, 10, 16)` yields a non-empty lower-case hex string with no leading zero unless the number is 0 |
| Hex.FromHexToHex | classes/Notifications.php:61 | reading back the hex spelling of a number gives the number (by induction over the digits) |
| Hex.ToHexInjective | classes/Notifications.php:61 | two numbers have the same hex spelling exactly when they are equal |
| Notifications.FreshId | classes/Notifications.php:60-62 | a generated ID starts with `n` and has `x` right after the unique token |
| MailboxProperties.FreshIdInjective | classes/Notifications.php:61 | for 13-character `uniqid()` tokens, two generated IDs are equal exactly when both the token and the random number are |
| DataKeys.PrefixInjective | classes/Notifications.php:167-171 | two recipient prefixes are equal exactly when the recipient digests are |
| DataKeys.RecipientPrefixOf | classes/Notifications.php:167-171 | a recipient prefix (`RecipientPrefix` applies the hash first) is 74 characters under `notifications/recipients/recipient/`, ends in `/`, and carries the recipient digest at a fixed position |
| DataKeys.NotificationKeyOf | classes/Notifications.php:173-178 | a notification key (`NotificationKey` applies the hash first) is 144 characters, begins with its recipient's prefix, and carries the notification digest at a fixed position |
| DataKeys.PrefixOwnsKey | classes/Notifications.php:167-178 | a recipient prefix is a prefix of a notification key exactly when the two recipient digests are equal |
| DataKeys.NotificationKeyInjective | classes/Notifications.php:173-178 | two notification keys are equal exactly when both their recipient and notification digests are |
| DataKeys.KeyOwnership | classes/Notifications.php:167-178 | the prefix of recipient `r'` starts the key of a notification of `r` exactly when `md5(r') == md5(r)` |
| DataStore.Enumerate | classes/Notifications.php:146 | iterating a set of keys visits each key exactly once |
| NotificationRecord.New | classes/Notifications/Notification.php:27-66 | a new record satisfies the setter invariant, has priority 3 and status `unread`, and has no ID, text or creation time |
| NotificationRecord.Assign | classes/Notifications/Notification.php:35-58 | an assignment fails exactly when it is a priority outside 1..5 or a status other than `read`/`unread`; otherwise it stores the value unchanged, keeps every other property, and preserves validity |
| NotificationRecord.AssignAllKeepsValid | classes/Notifications/Notification.php:35-58 | after any sequence of successful assignments, priority is in 1..5 and status is `read` or `unread` |
| NotificationRecord.AssignAllSucceedsIffAccepted | classes/Notifications/Notification.php:40-57 | a sequence of assignments completes exactly when every value in it is accepted by its setter |
| Notifications.Make | classes/Notifications.php:33-46 | `make` returns a valid record at the initial values, with ID and text as given (null when not given) |
| Notifications.Decode | classes/Notifications.php:101-111 | decoding throws exactly when a present priority or status is invalid (priority checked first); otherwise missing priority reads as 3, missing status as `unread`, missing ID, text and creation time as null, and `maxAge` as its initial value |
| MailboxProperties.DecodeToJsonRoundTrip | classes/Notifications.php:101-111 | decoding the JSON of a record gives the record back exactly when it is valid and its `maxAge` is at the initial value |
| Notifications.Set | classes/Notifications.php:81-88 | `set` adds exactly the key of the record's own ID, keeps every other entry, and the written value decodes back to the record when it is valid with `maxAge` at its initial value |
| Notifications.Send | classes/Notifications.php:56-88 | `send` fills in the ID and creation time only where null and keeps every other property; when vetoed the store is unchanged and `notificationSent` does not run; otherwise the record is stored under its key, replacing any previous value, and `notificationSent` runs exactly once, last, right after the write |
| MailboxProperties.GetAfterSend | classes/Notifications.php:56-111 | for a valid record whose `maxAge` is at its initial value, after a send that is not vetoed, `get` by the final ID returns the caller's final record |
| Notifications.Get | classes/Notifications.php:90-99 | `get` returns null exactly when nothing is stored under the key; otherwise it returns the decoded stored record, or fails with the decoding's error when decoding fails; a returned record is valid |
| Notifications.SetStatus | classes/Notifications.php:123-130 | with nothing stored the store is unchanged; it throws exactly when `get` does; otherwise the decoded record, with the new status, is written under the key of its own ID |
| Notifications.MarkAsRead | classes/Notifications.php:113-116 | a missing record is a no-op; when the stored ID matches, a later `get` sees the record with status `read` |
| Notifications.MarkAsUnread | classes/Notifications.php:118-121 | a missing record is a no-op; when the stored ID matches, a later `get` sees the record with status `unread` |
| MailboxProperties.SetStatusRewritesOwnKey | classes/Notifications.php:123-130 | when the stored ID matches, only the looked-up key changes, and it holds the decoded record with the new status |
| MailboxProperties.SetStatusWritesUnderDecodedId | classes/Notifications.php:85-86 | when the stored ID hashes differently, the looked-up record is left as it was and the rewrite lands under another key |
| MailboxProperties.SetStatusAlwaysRewrites | classes/Notifications.php:123-130 | the write-back is unconditional: a stored `maxAge` other than the initial value is reset, even when the status is unchanged |
| MailboxProperties.SetStatusIdempotent | classes/Notifications.php:123-130 | setting the same status twice leaves the store as setting it once |
| Notifications.Delete | classes/Notifications.php:132-137 | `delete` removes only the notification's key, an absent key is not an error, and a later `get` returns null |
| Notifications.DecodeInOrder | classes/Notifications.php:146-149 | decoding records in enumeration order fails exactly when one of them fails to decode, with the error of the first such record in that order; otherwise it yields each record's decoding, in order |
| Notifications.GetList | classes/Notifications.php:139-151 | the list fails exactly when some record under the recipient's prefix fails to decode, with the error of such a record; otherwise it holds one decoded record per key under the prefix, each key once |
| Notifications.CountsAsUnread | classes/Notifications.php:160 | a counted record that decodes reads back with status `unread`; a record that decodes to `unread` but is not counted has no stored `status` property |
| Notifications.CountUnread | classes/Notifications.php:158-163 | the loop's count equals the number of scanned values that count as unread |
| Notifications.GetUnreadCount | classes/Notifications.php:153-165 | the count equals the number of keys under the recipient's prefix whose stored status is exactly `unread` |
| MailboxProperties.MissingStatusIsNotCounted | classes/Notifications.php:106-108 | a record without a stored status and with no invalid priority reads back as `unread` through `get` yet is not counted by `getUnreadCount` |
| MailboxProperties.ScanSeesOnlyOwnRecords | classes/Notifications.php:145 | a recipient's scan contains another recipient's notification key only when the two IDs hash alike |
| MailboxProperties.SendLeavesOtherRecipients | classes/Notifications.php:76-88 | a send to one recipient leaves the scan and the unread set of every recipient with a different digest unchanged |
| MailboxProperties.SendUpdatesUnreadKeys | classes/Notifications.php:76-88 | after a send that is not vetoed, the sent key is in the unread set exactly when the sent status is `unread`; no other key changes membership |
| MailboxProperties.SetStatusUpdatesUnreadKeys | classes/Notifications.php:113-130 | when the stored ID matches, marking read removes the key from the unread set and marking unread adds it; nothing else changes |
| MailboxProperties.SendKeepsDecodable | classes/Notifications.php:56-88 | sending a valid record keeps every recipient's stored records decodable |
| MailboxProperties.StatusAndDeleteKeepDecodable | classes/Notifications.php:123-137 | status changes and deletions keep every recipient's stored records decodable |
| MailboxProperties.DecodableNeverThrows | classes/Notifications.php:90-130 | when a recipient's records all decode, `get`, `markAsRead` and `markAsUnread` do not throw |
| MailboxProperties.BasicsScenario | tests/notificationsTest.php:19-40 | make and send `id1`, then `get` sees it unread, then read after `markAsRead`, then unread after `markAsUnread`, then null after `delete` |
| MailboxProperties.GetListScenario | tests/notificationsTest.php:45-58 | after sends to two recipients with different digests, the first recipient's scan holds exactly its one record, which decodes to what was sent |
| MailboxProperties.UnreadCountScenario | tests/notificationsTest.php:63-86 | the unread count goes 0, 1, 2, 1, 2 over two sends, a `markAsRead` and a `markAsUnread`, for IDs with different digests |

## Left out

- Underlying data store: `$app->data` is a map from key to stored value. Store I/O failures, which the code lets propagate, are not modelled. `filterBy('key', prefix, 'startWith')` is modelled by the definition `DataStore.Scan`, the map restricted to keys that start with the prefix; what the scans guarantee is stated by `ScanSeesOnlyOwnRecords`, `GetList` and `GetUnreadCount`.
- `md5` is a parameter returning any 32-character lower-case hex string. Digest collisions are possible in the model, and the properties state their consequences via `hash(a) == hash(b)`.
- `uniqid()`, `rand(0, 999999999)` and `time()` are parameters. The random number's range is not enforced because no property depends on it.
- JSON encoding: a stored value is either a JSON object with typed, optional properties, or not an object. Values of the wrong JSON type, and the exact bytes `toJSON` writes, are not modelled. `toJSON` is modelled by the definition `NotificationRecord.ToJson`, which puts every property into the object; what it guarantees is stated by `DecodeToJsonRoundTrip`.
- The `maxAge` initial value: the record declares it `int` without an initialiser, and the data-object library that fills it in is not part of this model. It is taken to be 0 (`DefaultMaxAge`).
- Exceptions: both setters run `throw new Exception(...)` inside the record's namespace, which has no `Exception` class and no `use` import. At run time an invalid priority or status therefore fails with the same class-not-found `\Error`, which a `catch (\Exception $e)` does not catch. The model reports the failure as a `Result` failure and labels its cause (`InvalidPriority` or `InvalidStatus`); the code itself makes no such distinction.
- Hook dispatch: `notificationSend` may modify the notification object before it is stored. The model stores the record as `send` prepared it.
- `getList` returns a `DataList` built from a callback that scans and decodes; the list class is not part of this model, and the model evaluates the callback once.
- Notifications.GetList: when several records fail to decode, it promises only that the error is one of theirs, because which comes first depends on the store's enumeration order.
- The static `$newNotificationCache`: `make` is a pure constructor, so each call already returns an independent value.
- `classes/Notifications/BeforeSendNotificationEventDetails.php` (an event payload `send` does not use) and `index.php` (class registration) are not part of this model.
- Type replacement, `maxAge` expiry, `deleteAll`, `deleteOld`, the `title` property and event listeners appear only in `tests/NotificationsTest.php`; no code in this version implements them. Subscriptions appear in no file of this version.
