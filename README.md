# CyberHook in Dafny

CyberHook is a browser client for Discord webhooks. The user sets a webhook
URL, a bot name and an avatar. The user writes a message, optionally builds
embeds and attaches files, and posts the message to the webhook. The app
keeps a local history of what it sent and enforces a two-second cooldown
between sends.

This project models the core of that client and proves properties of it:

- `types.dfy` (module `Types`): the records of `src/types.ts`, plus `Option`,
  `Result`, a browser `File`, and the value a `throw` carries.
- `text.dfy` (module `Text`): the JavaScript primitives the core relies on.
  These are `String.prototype.trim`, `Number.prototype.toString(radix)`,
  `parseInt` over digit strings and `padStart`.
- `lists.dfy` (module `Lists`): the index-filter and `slice(0, n)` array
  expressions the components use.
- `discord.dfy` (module `Discord`, `src/utils/discord.ts`): the webhook URL
  check, the message check, the payload and multipart body of a send, how
  the response settles the send, `hexToDecimal` and `getAvatarUrl`.
- `session.dfy` (module `Session`, `src/hooks/useDiscordWebhook.ts`): the
  class `WebhookSession`. It holds the one `AppState` cell and the storage
  blob. It loads the blob, then runs `updateConfig`, `sendMessage` and
  `clearMessages`, saving after each.
- `composer.dfy` (module `Composer`, `src/components/MessageInput.tsx`): the
  attachment filter and cap, the send button's gate, and the class
  `MessageInputForm` with its submit handler.
- `embeds.dfy` (module `Embeds`, `src/components/EmbedBuilder.tsx`): the
  builder's list edits on embeds and on their fields. It also has the colour
  picker's text and the colour and image inputs.
- `configform.dfy` (module `ConfigForm`, `src/components/WebhookConfig.tsx`):
  the class `WebhookConfigForm`. It keeps a local copy of the configuration
  and a URL-validity flag that always agrees with the URL.
- `app.dfy` (module `App`, `src/App.tsx`): the class `AppShell`. It holds the
  embeds draft and the error banner, and wires the session, the composer
  and the form together.

Inputs the program takes from its environment are parameters of the model:

- the current time (`now`);
- what the network answers (`FetchOutcome`);
- the random ids, object URLs and `Date` of a history record (`Generated`);
- what storage holds at start-up (`StoredBlob`).

## Model

| member | source | states |
|---|---|---|
| Text.Trim | src/utils/discord.ts:13 | `trim()` cuts a run of whitespace from each end and keeps the slice between them. The result is empty exactly for all-whitespace input; otherwise it neither starts nor ends with whitespace |
| Text.TrimEmptyWhenBlank | src/utils/discord.ts:13 | trimming gives the empty string exactly when every character is whitespace |
| Text.TrimIsSlice | src/utils/discord.ts:13 | what trimming keeps is a slice of the input with only whitespace before and after it |
| Text.TrimEndsNotBlank | src/utils/discord.ts:13 | a non-empty trimmed string has no whitespace at either end |
| Text.ToBase | src/components/EmbedBuilder.tsx:131 | `toString(radix)` writes at least one digit of the radix, with no leading zero unless the number is 0 |
| Text.FromDigits | src/utils/discord.ts:80 | `parseInt` of n digits of a base is below base^n |
| Text.FromToBase | src/components/EmbedBuilder.tsx:131 | parsing what `toString(radix)` wrote gives the number back |
| Text.ToBaseInjective | src/utils/discord.ts:44 | two different numbers never get the same decimal text |
| Text.ToBaseLength | src/components/EmbedBuilder.tsx:131 | a number below base^k is written in at most k digits |
| Text.FromDigitsAppend | src/utils/discord.ts:80 | the value of a concatenation of digit strings is the left value shifted by the right length, plus the right value |
| Text.FromDigitsLeadingZeros | src/components/EmbedBuilder.tsx:131 | leading zeros do not change a digit string's value |
| Text.FromDigitsOfZeros | src/components/EmbedBuilder.tsx:131 | a string of zeros has value 0 |
| Text.PadStart | src/components/EmbedBuilder.tsx:131 | `padStart` gives at least the target length; the text ends with the input, preceded only by the filler |
| Text.PadStartZerosValue | src/components/EmbedBuilder.tsx:131 | padding a digit string with '0' keeps its value |
| Lists.RemoveAt | src/components/MessageInput.tsx:48 | the index filter drops exactly the element at the index and keeps the rest in order; an index out of range drops nothing |
| Lists.Take | src/hooks/useDiscordWebhook.ts:89 | `slice(0, n)` is the prefix of length min(length, n) |
| Lists.ReversedAt | src/hooks/useDiscordWebhook.ts:89 | element k of the reversed list is element length-1-k of the list |
| Discord.ValidateWebhookUrl | src/utils/discord.ts:7-10 | an accepted URL starts with the webhook prefix, has room for an id, a '/' and a token, and ends in a token character |
| Discord.ValidateWebhookUrlMatchesPattern | src/utils/discord.ts:7-10 | the URL check accepts exactly the anchored pattern: the webhook prefix, one or more ASCII digits, '/', one or more of [A-Za-z0-9_-], nothing else |
| Discord.OnlySplitIsDigitRun | src/utils/discord.ts:8 | in a URL the pattern matches, the '/' after the id is exactly where the digit run ends |
| Discord.WebhookUrlAccepted | src/utils/discord.ts:7-10 | a well-formed webhook URL is accepted |
| Discord.WebhookUrlOtherHostRefused | src/utils/discord.ts:7-10 | a URL on another host is refused |
| Discord.WebhookUrlTrailingSlashRefused | src/utils/discord.ts:7-10 | a URL with a trailing slash after the token is refused |
| Discord.ValidateMessage | src/utils/discord.ts:12-22 | the check answers nothing or one of its two error texts; content within 2000 characters passes whenever there is an embed; content over 2000 characters never passes |
| Discord.ValidateMessageOutcomes | src/utils/discord.ts:12-22 | the message check has three outcomes. Blank content with no embed gets the "required" error. Otherwise content over 2000 characters gets the length error. Everything else passes, so exactly 2000 characters pass |
| Discord.BlankOverLimitIsEmptyError | src/utils/discord.ts:13-15 | 2001 spaces with no embed get the "required" error, not the length error |
| Discord.BlankWithEmbedPasses | src/utils/discord.ts:12-21 | blank content with an embed passes |
| Discord.BuildPayload | src/utils/discord.ts:33-38 | content is the trimmed text, omitted exactly when blank. Username is copied. The avatar is omitted exactly when absent or empty. Embeds are omitted exactly when there are none |
| Discord.FileFieldName | src/utils/discord.ts:44 | an attachment's field name has the form `files[...]` |
| Discord.FileFieldNameCarriesIndex | src/utils/discord.ts:44 | between the brackets stand the index's decimal digits, which read back as the index |
| Discord.FileFieldNamesDistinct | src/utils/discord.ts:43-45 | two attachments never share a field name |
| Discord.RequestBodyNamesDistinct | src/utils/discord.ts:40-45 | no two parts of a request body share a name |
| Discord.BuildFormData | src/utils/discord.ts:40-45 | given the payload, the body is its `payload_json` part first, then one `files[k]` part per file in file order; with no files it is the payload part alone |
| Discord.ApiErrorText | src/utils/discord.ts:55 | the error text is "Discord API error: " followed by the status's decimal digits |
| Discord.ApiErrorCarriesStatus | src/utils/discord.ts:55 | the HTTP status can be read back from the API error text |
| Discord.DeliveryResult | src/utils/discord.ts:52-62 | the send succeeds exactly for a 2xx response. Any other response gives an Error naming the status. A rejected request re-throws its reason |
| Discord.SendDiscordWebhook | src/utils/discord.ts:24-63 | one POST goes to the configured URL with the multipart body; the result is decided by the response as above |
| Discord.StripHash | src/utils/discord.ts:80 | `replace('#', '')` removes one '#' and keeps text without a '#' as it is; a leading '#' is the one removed |
| Discord.StripHashDropsFirstHash | src/utils/discord.ts:80 | the '#' removed is the first one, wherever it is: the text before it and after it are kept |
| Discord.HexToDecimal | src/utils/discord.ts:79-81 | the text left once the first '#' is removed, read in base 16, gives NaN (None) exactly when it is empty, and a value below 16^n for n digits otherwise |
| Discord.HexColorInRange | src/utils/discord.ts:79-81 | '#' and six hex digits give a value in 0..0xFFFFFF |
| Discord.GetAvatarUrl | src/utils/discord.ts:83-85 | the given URL when it is non-empty, the fixed default otherwise; never empty |
| Session.InitialState | src/hooks/useDiscordWebhook.ts:8-31 | the loading flag, send time and quota always start at false, 0 and 100. Stored messages and configuration are used when present, the defaults when missing. With no blob or an unparseable one the state is the default state |
| Session.Persisted | src/hooks/useDiscordWebhook.ts:35-38 | the snapshot holds the messages and configuration: loading it back gives the state with only the transient fields reset |
| Session.CooldownWait | src/hooks/useDiscordWebhook.ts:57-62 | a send is refused exactly when less than 2000 ms have passed; the wait is the ceiling of the remaining milliseconds over 1000 |
| Session.RateLimitText | src/hooks/useDiscordWebhook.ts:61 | the rate-limit error is "Rate limit: Please wait ", the wait's decimal digits, then " seconds"; the digits read back as the wait |
| Session.NextQuota | src/hooks/useDiscordWebhook.ts:92 | the quota drops by one, floored at 0, and stays within 0..100 |
| Session.PrependMessage | src/hooks/useDiscordWebhook.ts:89 | the new message is first, the older ones follow in order, and the history holds at most 100 |
| Session.AfterSendsKeepsNewest | src/hooks/useDiscordWebhook.ts:86-89 | successive sends leave the newest 100 messages, latest first |
| Session.OldestEvictedFirst | src/hooks/useDiscordWebhook.ts:89 | after 101 sends into an empty history, the first message sent is the one dropped |
| Session.PrependAfterTake | src/hooks/useDiscordWebhook.ts:89 | prepending to the newest 100 and cutting to 100 is cutting the longer list to 100 |
| Session.RecordAttachments | src/hooks/useDiscordWebhook.ts:77-83 | one record per file, in file order, with that file's name, size and type |
| Session.RecordMessage | src/hooks/useDiscordWebhook.ts:69-84 | the history record carries the generated id and date, the sent content and embeds, the configuration's name, avatar and URL, and one attachment record per file with its name, size and type |
| Session.WebhookSession.constructor | src/hooks/useDiscordWebhook.ts:8-31 | the session starts in the initial state for what storage holds |
| Session.WebhookSession.SaveToStorage | src/hooks/useDiscordWebhook.ts:33-42 | storage holds exactly the messages and the configuration |
| Session.WebhookSession.UpdateConfig | src/hooks/useDiscordWebhook.ts:44-50 | only the configuration changes, and the snapshot is saved |
| Session.WebhookSession.ClearMessages | src/hooks/useDiscordWebhook.ts:105-111 | only the history changes, to empty, and the snapshot is saved |
| Session.WebhookSession.SendMessage | src/hooks/useDiscordWebhook.ts:52-103 | within the cooldown it issues no request, fails with the rate-limit text for the wait and changes nothing. Otherwise it issues one POST to the configured URL with the message's payload and files, and the response decides the result. On success the record goes first in the history, the send time becomes `now`, the quota drops and the snapshot is saved. On failure the state and storage are as before. The quota stays in 0..100 |
| Session.DeliverySettles | src/hooks/useDiscordWebhook.ts:64-103 | proof step for `SendMessage`: outside the cooldown, the POST followed by the sent state on success, or by the old state on failure, meets `SendSettled` |
| Composer.AcceptedFiles | src/components/MessageInput.tsx:38-42 | a file is kept exactly when it is one of the selected files and its size is at most 8 MiB |
| Composer.AcceptedFilesAppend | src/components/MessageInput.tsx:39-42 | filtering a concatenation filters each part, so the kept files stay in selection order |
| Composer.AcceptedFilesAllSmall | src/components/MessageInput.tsx:39-42 | a selection of small files is kept whole |
| Composer.WithSelected | src/components/MessageInput.tsx:44 | the old attachments come first, followed by accepted files while they fit. With at most ten old attachments all of them stay. The length is min(old + accepted, 10) |
| Composer.SelectingNothingKeepsAttachments | src/components/MessageInput.tsx:44 | an empty selection changes nothing |
| Composer.CanSend | src/components/MessageInput.tsx:71-73 | the button is enabled exactly when the session is configured and idle and the message check passes |
| Composer.MessageInputForm.constructor | src/components/MessageInput.tsx:19-20 | the composer starts empty |
| Composer.MessageInputForm.SetMessage | src/components/MessageInput.tsx:86 | typing replaces the text |
| Composer.MessageInputForm.HandleFileSelect | src/components/MessageInput.tsx:38-45 | the attachments become the old ones plus the accepted files, capped at 10; at most 10 files, none over 8 MiB, stay attached |
| Composer.MessageInputForm.RemoveAttachment | src/components/MessageInput.tsx:47-49 | exactly the file at the index is removed |
| Composer.MessageInputForm.HandleSubmit | src/components/MessageInput.tsx:24-36 | a draft the check refuses is alerted and kept. Any other draft is sent as it stands, and the text and attachments are cleared before the outcome is known |
| Embeds.AddEmbed | src/components/EmbedBuilder.tsx:19-27 | one embed is appended with empty title and description, colour 0x7B68EE and no fields; the others are unchanged |
| Embeds.RemoveEmbed | src/components/EmbedBuilder.tsx:35-37 | exactly the embed at the index is removed, the others keep their order |
| Embeds.RemoveUndoesAdd | src/components/EmbedBuilder.tsx:19-37 | removing the embed just added restores the list |
| Embeds.UpdateEmbed | src/components/EmbedBuilder.tsx:29-33 | only the edited key of the indexed embed changes; the length and the other embeds are unchanged |
| Embeds.UpdateEmbedIdempotent | src/components/EmbedBuilder.tsx:29-33 | the same edit twice is the edit once |
| Embeds.ApplyEmbedEdit | src/components/EmbedBuilder.tsx:31 | merging an update into an embed sets the edited key to the new value and keeps every other key |
| Embeds.ImageUrlEdit | src/components/EmbedBuilder.tsx:159-161 | non-empty text gives an image with that URL, empty text gives no image |
| Embeds.ColorEdit | src/components/EmbedBuilder.tsx:132 | the stored colour is hexToDecimal of the picker's value, a 24-bit colour |
| Embeds.ColorInputValue | src/components/EmbedBuilder.tsx:131 | the picker's value is '#' followed by hex digits only, at least six of them; exactly six for a missing or 24-bit colour |
| Embeds.PaddedHexValue | src/components/EmbedBuilder.tsx:131 | a 24-bit colour in hex padded to six digits has six digits and reads back to the colour |
| Embeds.ColorRoundTrip | src/components/EmbedBuilder.tsx:131-132 | hexToDecimal of the picker text shown for a 24-bit colour gives that colour |
| Embeds.MissingColorShowsDefault | src/components/EmbedBuilder.tsx:131 | an embed without a colour shows text that reads as 0x7B68EE |
| Embeds.ApplyFieldEdit | src/components/EmbedBuilder.tsx:52-59 | a field edit changes only the edited key of the field |
| Embeds.AddField | src/components/EmbedBuilder.tsx:39-50 | the indexed embed's field list, created if absent, gains the default field at its end; nothing else changes |
| Embeds.AddFieldPastLimit | src/components/EmbedBuilder.tsx:39-50 | an embed with 25 fields still gains a 26th |
| Embeds.UpdateField | src/components/EmbedBuilder.tsx:52-59 | only the indexed field of the indexed embed changes, and only in the edited key |
| Embeds.RemoveField | src/components/EmbedBuilder.tsx:61-65 | exactly the indexed field is removed from the indexed embed; nothing else changes |
| Embeds.RemoveFieldUndoesAddField | src/components/EmbedBuilder.tsx:39-65 | removing the field just added restores the embeds |
| Embeds.ApplyBuilderAction | src/components/EmbedBuilder.tsx:19-65 | only adding and removing an embed change the number of embeds |
| ConfigForm.WebhookConfigForm.constructor | src/components/WebhookConfig.tsx:17-27 | after mounting, the form holds the prop, the flag agrees with its URL, and the panel is shown |
| ConfigForm.WebhookConfigForm.SyncProp | src/components/WebhookConfig.tsx:21-27 | a new prop replaces the local configuration and resets the flag. The panel is forced open when the prop has no URL and otherwise keeps its state |
| ConfigForm.WebhookConfigForm.HandleUrlChange | src/components/WebhookConfig.tsx:36-39 | only the URL changes, and the flag follows it |
| ConfigForm.WebhookConfigForm.HandleUsernameChange | src/components/WebhookConfig.tsx:143 | only the username changes; the flag still agrees with the URL |
| ConfigForm.WebhookConfigForm.HandleAvatarChange | src/components/WebhookConfig.tsx:157 | only the avatar URL changes; the flag still agrees with the URL |
| ConfigForm.WebhookConfigForm.HandleSubmit | src/components/WebhookConfig.tsx:29-34 | the local configuration is committed exactly when its URL is a webhook URL |
| ConfigForm.WebhookConfigForm.Toggle | src/components/WebhookConfig.tsx:54 | the panel's visibility flips |
| App.RefusedSendShowsStatus | src/App.tsx:39-41 | a refused webhook call shows "Discord API error: " and the status in the banner |
| App.ErrorBannerText | src/App.tsx:40 | an Error shows its message; anything else thrown shows "Failed to send message" |
| App.AppShell.IsConfigured | src/App.tsx:32 | the page is configured exactly when the session's URL matches the webhook pattern |
| App.AppShell.constructor | src/App.tsx:15-16 | the page starts with no embeds and no error, an empty composer, the session loaded from storage, and the form showing the session's configuration |
| App.AppShell.HandleSendMessage | src/App.tsx:34-42 | the session settles the send as `SendMessage` states: no request and nothing changed within the cooldown, else the POST and, on success, the new history, send time, quota and snapshot. A success empties the embeds draft and leaves no banner. A failure shows the error's message, or "Failed to send message" for a non-Error, and keeps the draft |
| App.AppShell.SubmitDraft | src/App.tsx:99-103 | a draft the check refuses is alerted with the check's text and changes nothing. An accepted draft of the old text, page embeds and attachments is sent and settled as `HandleSendMessage` states, with its banner and embeds effect, and the composer is emptied whatever the outcome |
| App.AppShell.SaveConfig | src/App.tsx:88-89 | with an invalid URL nothing changes. With a valid one the form's configuration is committed: the session takes it and saves, the form keeps it with its flag up, and the page is configured |
| App.AppShell.EditEmbeds | src/App.tsx:95-96 | the embeds draft becomes the list the builder computed |
| App.AppShell.ClearHistory | src/App.tsx:141-142 | clearing empties the session history and saves |

## Left out

- The network call and `response.json()`: the response status, or the rejection, is the `FetchOutcome` parameter. The error body is only logged, so it is dropped.
- `localStorage` and JSON: storage is the abstract `StoredBlob` field. A failed write is only logged, so every save is modelled as succeeding. Reloading the abstract snapshot is modelled (`Session.Persisted`), but the JSON text round trip is not: a `Date` reads back as a string, and object URLs do not survive a reload.
- `Date.now()`, `new Date()`, `generateRandomId` (`Math.random`) and `URL.createObjectURL` are parameters (`now`, `Generated`).
- `formatTimestamp`: it is display-only `Intl` formatting.
- Interleaving of asynchronous handlers: every operation is atomic and sequential. So the model does not capture two overlapping sends that read a stale `lastSentTime`, or a send that starts while another is loading. The loading flag is raised and lowered inside one `SendMessage` call.
- In-place mutation of embed objects (`push`, indexed assignment in `addField`, `updateField`, `removeField`): the edits are modelled on values. Aliasing between the old and new arrays is only visible under interleaving.
- `MAX_EMBED_FIELDS`: the source never enforces it (see `Embeds.AddFieldPastLimit`).
- The quota counter never refills, as in the source.
- Rendering, drag state, theme, navigation, the docs page, the status bar and the history view are left out. Drag and drop goes through the same handler as file selection.
- `Discord.HexToDecimal`: requires that the text with its first '#' removed is at most 13 hex digits, where `parseInt` is exact. Whitespace, signs, `0x`, a second '#' and other trailing junk, which `parseInt` stops at, are not modelled.
- String lengths count characters, while JavaScript counts UTF-16 code units, so the 2000 limit is modelled per character.
- `ConfigForm.WebhookConfigForm.constructor`: the moment between the first render and the effect, when the flag is still false, is not a separate state.
- `Session.InitialState`: a stored `messages` or `currentConfig` that is present but not a list or a configuration object is not modelled. Only present or missing values are.
