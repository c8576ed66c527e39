# Anti-delete cache of a WhatsApp bot, in Dafny

The plugin `plugins/antidelete.js` keeps a short-lived copy of the messages the bot sees. When a
message is deleted, the plugin forwards the copy to a configured chat. This project models the
plugin's core and proves what it does:

- **`AntiDeleteSystem`** (`Cache` module). A class with the `enabled` flag, the fixed
  `cacheExpiry` of 300000 ms and the `messageCache` map from message id to entry. It also has a
  field `saved`, which stands for the database file: it holds the last snapshot written.
  - `addMessage` inserts or overwrites, then saves.
  - `deleteMessage` removes an id and saves only when the id was present.
  - `cleanExpiredMessages` drops every entry older than the expiry in a loop, then saves once.
  - `destroy` is a save.
  - Each save takes its outcome from the environment. The source swallows write errors, and a
    failed write leaves `saved` unchanged (a write that fails part-way is discussed under
    "## Left out"). The pure transitions `Put`, `Remove` and `Sweep` on a
    `CacheState` specify the methods.
- **Capture** (`Capture` module, the `messages.upsert` handler). Nothing happens while disabled.
  Messages sent by the bot itself or without a payload are skipped.
  - The text kept is the plain body, else the extended text, else the first truthy caption.
  - The attachment downloaded is the first present of image, video, audio, document. The
    download stream is drained chunk by chunk into one buffer.
  - An entry is stored only when there is text or media. A failed download throws into the
    per-message `catch`, so that message is dropped even when it has text. The rest of the batch
    is still handled.
- **Recovery** (`Recovery` module, the `messages.update` handler).
  - For a cached id, one message is sent to the destination. The destination is the message's
    chat when the path setting is `"same"`, and the bot's own chat otherwise.
  - When the entry has media, the media goes out with the alert as its caption. Otherwise a text
    goes out: the alert followed by the content.
  - The id is removed only after the send returns. A failed send keeps the entry.
  - Sends are appended to the `outbox` of a `Connection` object.
- **Admin** (`Admin` module, the `antidelete` command). Only the bot's own account may use it.
  - `on` sets the flag.
  - `off` clears the flag and empties the map without saving.
  - Anything else reports the flag, the mode and the cache size.
- **`formatJid`** (`Jid` module). It cuts off the first match of `/@.+/`, where `.` does not
  match a line terminator. It gives `'Unknown'` for a missing id or an empty result.

The outside world is passed in as parameters. For the i-th message of a batch, `env(i)` gives
the clock, the download outcome and the save outcome. For the i-th update, `env(i)` gives the
send outcome and the save outcome. Each message or update causes at most one download, one send
and one save, so one answer per position is exact. `formatTime` is a function parameter. The two
settings from `config.cjs` are parameters: `ANTI_DELETE` (default `true`) and
`ANTI_DELETE_PATH` (default `"inbox"`).

The `Scenarios` module has three client methods that use only the specifications:
- a text message is recovered once into the bot's chat, and a repeated deletion sends nothing;
- an image whose download fails is never cached;
- `off` empties the cache, so a later deletion is ignored.

### Behaviour worth knowing

- **The deletion filter is dead.** The code tests `!updateData?.messageStubType === REVOKE`
  (plugins/antidelete.js:171). Unary `!` binds tighter than `===`, so a boolean is compared with
  a number and the test is never true. The only remaining filters are "the id is cached" and "the
  update data is there": any update for a cached id triggers recovery, not only a revocation.
  `Recovery.RevokeTestAsWritten` models the test as written and states that it never holds;
  `Recovery.RecoveryIgnoresStubType` shows that the stub type plays no part. The equality test
  the line evidently means is kept as the unused predicate `Recovery.IsRevocation`.
- **A failed download drops the whole message**, even when it has text: the throw ends the
  `try` block before `addMessage` (plugins/antidelete.js:139-160).
- **Recovery makes exactly one send**: the media with the alert as its caption, or one text
  (plugins/antidelete.js:187-198).
- **`off` does not save.** It clears the map without calling `saveDatabase`
  (plugins/antidelete.js:108-112), so the file keeps the old entries until the next save.

## Model

| member | source | states |
|---|---|---|
| `Jid.StripHost` | plugins/antidelete.js:78 | `replace(/@.+/, '')` returns the id unchanged exactly when the pattern has no match. With a match, the part before it is kept and at least two characters (the `@` and the next one) are cut. |
| `Jid.FormatJid` | plugins/antidelete.js:78 | Never empty. `'Unknown'` for a missing id, and `'Unknown'` when nothing is left after the cut. Otherwise the id without its first `@`-host match. |
| `Jid.FirstMatch` | plugins/antidelete.js:78 | The leftmost `@` followed by a non-line-terminator is found. No earlier index matches, and `None` means no index matches. |
| `Jid.LineEnd` | plugins/antidelete.js:78 | The greedy `.+` stops at the first line terminator or at the end of the string. |
| `Jid.StripHostSingleLine` | plugins/antidelete.js:78 | On a single-line id the result is a prefix: everything before the first `@` that has a character after it. That prefix holds no `@`. |
| `Jid.StripHostIdempotent` | plugins/antidelete.js:78 | Removing the host part twice is the same as once, on single-line ids. |
| `Jid.FormatJidIdempotent` | plugins/antidelete.js:78 | Formatting an already formatted single-line id changes nothing. |
| `Jid.FormatJidExamples` | plugins/antidelete.js:78 | `"123@s.whatsapp.net"` gives `"123"`. |
| `Jid.FormatJidEdgeCases` | plugins/antidelete.js:78 | A missing id, an empty id and `"@g.us"` give `"Unknown"`. `"123@"` is kept whole, because a final `@` does not match. |
| `Messages.Lookup` | plugins/antidelete.js:133-138 | `message[name]` is present exactly when some payload property has that name, and it is that property's value. |
| `Messages.ExtendedText` | plugins/antidelete.js:133 | `extendedTextMessage?.text` is missing when the payload has no `extendedTextMessage` property. Otherwise it is the `text` of the first property with that name. |
| `Messages.CaptionIndex` | plugins/antidelete.js:134 | `find(m => m?.caption)` stops at the first property with a truthy caption and passes over none. |
| `Messages.FirstCaption` | plugins/antidelete.js:134 | The caption found is truthy and belongs to the first property with a truthy caption. `None` means no property has one. |
| `Messages.Content` | plugins/antidelete.js:132-134 | The kept text is missing or non-empty. It comes from the plain body, else the extended text, else the first caption. It is missing only when all three are falsy. |
| `Messages.Present` | plugins/antidelete.js:138 | `message[type + 'Message']` is truthy exactly when the payload has an object-valued property with that name. |
| `Messages.FirstKindFrom` | plugins/antidelete.js:137-146 | The probing loop returns the first present kind from a given position on, or `None` when none from there is present. |
| `Messages.FirstKind` | plugins/antidelete.js:137-146 | The attachment kind is present, and no kind earlier in the order image, video, audio, document is present. `None` exactly when no kind is present. |
| `Cache.Put` | plugins/antidelete.js:42-45 | After `addMessage(k, e)`: `cache[k] == e`, and every other key is unchanged. The size grows by one for a new key and by zero for an existing one. The snapshot is the new map when the write succeeds. |
| `Cache.Remove` | plugins/antidelete.js:47-52 | After `deleteMessage(k)`: `k` is absent and nothing else is removed. The size shrinks by one exactly when `k` was present. An absent `k` changes neither the map nor the snapshot. |
| `Cache.Unexpired` | plugins/antidelete.js:54-60 | The kept entries form a sub-map, and each satisfies `now - timestamp <= cacheExpiry`. Every entry that satisfied it before is kept. |
| `Cache.Sweep` | plugins/antidelete.js:54-62 | After `cleanExpiredMessages`: only fresh entries remain, all fresh entries are kept unchanged, and one save is made. |
| `Cache.SweepIdempotent` | plugins/antidelete.js:54-62 | A second sweep at the same instant removes nothing. |
| `Cache.SweepBoundary` | plugins/antidelete.js:57 | An entry exactly `cacheExpiry` old survives. One a millisecond older is dropped. |
| `Cache.AntiDeleteSystem.constructor` | plugins/antidelete.js:11-31 | `enabled` comes from the config flag. The map is what `loadDatabase` read, or empty when the file is missing or unreadable. |
| `Cache.AntiDeleteSystem.SaveDatabase` | plugins/antidelete.js:33-40 | The snapshot becomes the map on a successful write. A failed write is swallowed and leaves the snapshot unchanged. |
| `Cache.AntiDeleteSystem.AddMessage` | plugins/antidelete.js:42-45 | Performs `Put` on the cache and its snapshot. The flag is unchanged. |
| `Cache.AntiDeleteSystem.DeleteMessage` | plugins/antidelete.js:47-52 | Performs `Remove`, and saves only when the key was present. The flag is unchanged. |
| `Cache.AntiDeleteSystem.CleanExpiredMessages` | plugins/antidelete.js:54-62 | The deleting loop over the entries performs `Sweep` whatever order it visits them in. |
| `Cache.AntiDeleteSystem.Destroy` | plugins/antidelete.js:64-67 | A save of the current map. |
| `Capture.Concat` | plugins/antidelete.js:140-141 | The drained buffer is as long as all the chunks together. |
| `Capture.ConcatAppend` | plugins/antidelete.js:140-141 | The buffer does not depend on where the stream splits into chunks. |
| `Capture.Drain` | plugins/antidelete.js:140-142 | The `for await` loop leaves exactly the chunks concatenated in order. |
| `Capture.Captured` | plugins/antidelete.js:128-160 | Nothing is stored for a message sent by the bot itself or without a payload, or whose download failed, even with text. Without an attachment, an entry is stored exactly when there is text. With a downloaded attachment, an entry is always stored. The entry has `timestamp == now`, `chatJid == remoteJid`, `sender` the participant, else `remoteJid`, the selected text and kind, and the drained bytes. |
| `Capture.CaptureStep` | plugins/antidelete.js:128-160 | One iteration: a message that yields no entry changes nothing. One that does is stored under its id, and every other entry keeps its value. |
| `Capture.CaptureUpTo` | plugins/antidelete.js:128-161 | A batch never removes a key that was cached before it. |
| `Capture.HandleMessage` | plugins/antidelete.js:129-160 | The loop body (skip test, text and kind selection, download, `addMessage`) performs `CaptureStep`. The flag is unchanged. |
| `Capture.CaptureStepKeys` | plugins/antidelete.js:148-157 | One message adds its id to the keys exactly when it yields an entry, and adds nothing otherwise. |
| `Capture.CaptureKeys` | plugins/antidelete.js:128-161 | After a batch, the keys are the old keys plus the ids the batch stored. No entry is removed. |
| `Capture.CaptureKeepsOthers` | plugins/antidelete.js:128-161 | An entry whose id no message of the batch stored over keeps its value. |
| `Capture.CaptureSize` | plugins/antidelete.js:128-161 | The map never shrinks during a batch and grows by at most one entry per message. |
| `Capture.LastCaptureWins` | plugins/antidelete.js:149-156 | A second capture of an id replaces the first. The cache holds the entry of the last message that stored the id. |
| `Capture.FailedDownloadSkipsMessage` | plugins/antidelete.js:139-160 | A failed download adds nothing for that message, even with text, and the batch goes on with the next message. |
| `Capture.OnUpsert` | plugins/antidelete.js:125-162 | Disabled: nothing changes. Enabled: the cache and snapshot are those of the batch processed message by message. The flag is unchanged. |
| `Recovery.RevokeTestAsWritten` | plugins/antidelete.js:171 | `!updateData?.messageStubType === REVOKE` is false for every update, because `!` yields a boolean and `===` compares it with a number. |
| `Recovery.RecoveryIgnoresStubType` | plugins/antidelete.js:171-172 | Whether an update with update data is acted on depends only on whether its id is cached. Changing its stub type to anything changes nothing. |
| `Recovery.RevokeTestIgnoresStubType` | plugins/antidelete.js:171 | A revocation and an update without a stub type are told apart by the intended test but not by the written one. |
| `Recovery.Destination` | plugins/antidelete.js:175 | The destination is `key.remoteJid` when the path setting is `"same"`, and the bot's id otherwise. |
| `Recovery.Upper` | plugins/antidelete.js:180 | Upper-casing keeps the length and upper-cases each ASCII letter. |
| `Recovery.TypeLabel` | plugins/antidelete.js:180 | The label is `TEXT` exactly when the entry has no kind. Otherwise it is as long as the kind's name. |
| `Recovery.TypeLabels` | plugins/antidelete.js:180 | The labels of the four kinds are `IMAGE`, `VIDEO`, `AUDIO` and `DOCUMENT`. |
| `Recovery.Deleter` | plugins/antidelete.js:182 | The deleter is the update's participant when that is truthy, and the key's participant otherwise. It is truthy when either is. |
| `Recovery.Mentions` | plugins/antidelete.js:191 | Mentions are sender then deleter, with falsy ones dropped. All are non-empty. |
| `Recovery.JoinKeepsLines` | plugins/antidelete.js:177-185 | Every line of the alert occurs in the joined alert text. |
| `Recovery.JoinEnds` | plugins/antidelete.js:185 | `join` begins with the first line and ends with the last one. |
| `Recovery.AlertLines` | plugins/antidelete.js:177-184 | Seven lines: the header, then the opening rule. The type, sender, deleter and time lines start with their labels (`*Type:*`, `*Sender:* @`, `*Deleted by:* @`, `*Time:*`) and end with the given values. The last line is the closing rule. |
| `Recovery.AlertText` | plugins/antidelete.js:177-185 | The alert text begins with the header line and ends with the closing rule. |
| `Recovery.AlertNamesParties` | plugins/antidelete.js:177-185 | The alert contains the type label line, the `@`-lines with the formatted sender and deleter, and the line with the formatted capture time. |
| `Recovery.RecoveryMessage` | plugins/antidelete.js:187-198 | Exactly one message: media with the alert as caption when the entry has media, otherwise a text. The text is exactly the alert, then the `\n┃◈• *Content:*\n` heading, then the content (`undefined` when missing). So it starts with the alert and ends with the content. Mentions are `[sender, deleter]` without falsy values. |
| `Recovery.RecoverStep` | plugins/antidelete.js:169-203 | Nothing changes unless the id is cached and the update data is present. Nothing changes when the send fails, so the entry stays. Otherwise exactly one delivery is appended and only then the id is removed. |
| `Recovery.RecoverUpTo` | plugins/antidelete.js:168-204 | After any prefix of a batch the cache is the old map restricted to some of its keys. Entries are only removed, never changed or added. |
| `Recovery.RecoverAtMostOnce` | plugins/antidelete.js:172-200 | After a successful recovery the id is absent. Delivering the same update again sends nothing and changes nothing. |
| `Recovery.RecoverAccounting` | plugins/antidelete.js:168-204 | Over a batch, earlier sends stay. Sends made plus entries left equals entries before. |
| `Recovery.UpdateChats` | plugins/antidelete.js:170-175 | The set of chats of the first `n` updates contains each of their `remoteJid`s and nothing else. |
| `Recovery.RecoverStepRouting` | plugins/antidelete.js:175-198 | One update sends nothing, or exactly one message, appended after the earlier ones, to its destination. |
| `Recovery.RecoverRouting` | plugins/antidelete.js:175-194 | Outside `"same"` mode, every message a batch sends goes to the bot's chat. In `"same"` mode, each goes to the chat of an update of the batch. |
| `Recovery.RecoverFromEmptyCache` | plugins/antidelete.js:172 | With an empty cache (after `off`), a batch of updates changes nothing and sends nothing. |
| `Recovery.Connection.SendMessage` | plugins/antidelete.js:188-197 | A successful send appends one delivery to the outbox. A failed one appends nothing. |
| `Recovery.HandleUpdate` | plugins/antidelete.js:169-203 | The loop body (filter, destination, alert, one send, then `deleteMessage`) performs `RecoverStep` on the cache and the outbox. The flag is unchanged. |
| `Recovery.OnUpdate` | plugins/antidelete.js:165-205 | Disabled: nothing changes. Enabled: the cache, snapshot and outbox are those of the batch processed update by update. The flag is unchanged. |
| `Admin.ModeOf` | plugins/antidelete.js:93-95 | Same-chat mode exactly when the path setting is `"same"`. |
| `Admin.AntiDeleteCommand` | plugins/antidelete.js:87-121 | A non-owner changes nothing. `on` sets the flag and leaves the map. `off` clears the flag and empties the map without touching the snapshot. Anything else reports the flag, the mode and `messageCache.size` and changes nothing. |

## Left out

- The Baileys transport (`downloadContentFromMessage`, `Matrix.sendMessage`, `m.reply`,
  `m.React`): downloads and sends are outcomes given by the environment. A send that throws is
  modelled as delivering nothing.
- File I/O and JSON in `loadDatabase`/`saveDatabase`: only the snapshot is kept. There is no
  save/load round trip, because a `Buffer` turned into JSON does not parse back into a `Buffer`.
- SaveDatabase: a failed write keeps the previous snapshot, which is right only when the failure
  comes before the file is opened (`JSON.stringify` throws, or the file cannot be opened).
  `fs.writeFileSync` truncates the file first, so a write that fails part-way leaves an empty or
  partial file. The next `loadDatabase` cannot parse it and starts with an empty cache. The model
  does not represent a damaged file.
- The `setInterval`/`clearInterval` timer and `Date.now()`: the sweep is a method, and the time
  is a parameter.
- `formatTime` (`toLocaleString` with a locale): a function parameter.
- The reply and reaction templates, and splitting the command text into `cmd`/`subCmd`: the
  command takes the sub-command already split out, and replies are a datatype.
- Re-registration of the two event handlers on every plugin call, and the interleaving of the
  resulting async handlers: this is concurrency. Each batch is handled sequentially, and
  `enabled` is read once per batch as in the source.
- An observed message without a `key`: there it throws outside the `try` and aborts the rest of
  the batch. The model assumes every message and update has a key whose id is a string.
- Upper: models `toUpperCase` only on ASCII letters, which is all it is applied to (the four
  kind names).
- Timestamps are unbounded integers. JavaScript numbers are exact for these millisecond values.
- `config.cjs` environment parsing: its two settings are parameters, with their defaults in
  `Admin.DefaultConfig`.
