# Telegram notification builders, modelled in Dafny

This project models the payload builders of the Laravel Telegram
notification channel. Each message kind keeps an insertion-ordered payload
of key/value pairs, and chained setters write, unset or merge keys in it:

- the text message;
- the file;
- venue, location, contact, poll, photo and audio;
- the `getUpdates` query;
- the older `Message` value object.

Around the payload the model covers:

- the shared builder trait: recipient, parse mode, keyboards and inline
  buttons laid out in rows, options merge, token and send condition;
- the text operations of a text message: `line`, MarkdownV2 escaping in
  `escapedLine`, splitting a long text with `chunkStrings`;
- the rule that turns one payload into the payloads of a chunked message;
- the conversion of a file payload into multipart parts;
- the `FileType` tables.

Modules, one file each:

- `Values` (values.dfy): what a payload entry can hold, and PHP
  truthiness.
- `Payloads` (payloads.dfy): the ordered payload.
  - A payload is a list of distinct keys plus a map from key to value.
  - `Set`, `Unset` and `Merge` model `$p[$k] = $v`, `unset($p[$k])` and
    the string-key `array_merge` / `[...$p, ...$o]`.
  - `WellFormed` is the invariant: keys unique, keys and map in step. It is
    proved preserved by each of the three operations.
- `ArrayChunk` (array_chunk.dfy): `array_chunk` and `mb_str_split` as one
  function `Chunk`. It is proved to be the unique layout whose rows flatten
  back to the list, with every row full except the last.
- `SharedLogic` (shared_logic.dfy): the `HasSharedLogic` trait as the class
  `Builder`. Every class that uses the trait holds one as `base`.
- `MessageText` (message_text.dfy): escaping, word wrapping, `chunkStrings`
  and the chunked-sending payloads.
- `Messages` (telegram_message.dfy): the `TelegramMessage` class.
- `Files` (telegram_file.dfy): `TelegramFile` and `toMultipart`.
- `FileTypes` (file_types.dfy): the `FileType` enum.
- One class per builder: `Venues`, `Locations`, `Contacts`, `Polls`,
  `Photos`, `Audios`, `Updates`, `LegacyMessages`.
- `Scenarios` (scenarios.dfy): call sequences from the feature tests, with
  the exact payload each one leaves.

Setters are methods that reassign the class's `payload` field. Each one
states the new payload in terms of the old one through `Set`, `Unset` or
`Merge`. The lemmas in `Payloads` then say what those operations mean:

- what a lookup returns afterwards;
- where a new key lands;
- that a second write wins;
- that `normal()` twice is `normal()` once;
- that merging the same options twice is merging them once.

Display width is taken as the number of characters.

## Model

| member | source | states |
|---|---|---|
| Payloads.NewKeysMember | src/Traits/HasSharedLogic.php:211 | a key is appended by an options merge exactly when the options hold it and the payload does not |
| Payloads.Merge | src/Traits/HasSharedLogic.php:209-214 | merging options keeps every existing key in its place, appends the option keys not yet present in the options' order, and lets the option values win |
| Payloads.MergeWellFormed | src/Traits/HasSharedLogic.php:211 | a merge of two payloads with unique keys has unique keys |
| Payloads.SetWellFormed | src/Traits/HasSharedLogic.php:46 | assigning a key keeps the keys unique and in step with the values |
| Payloads.UnsetWellFormed | src/Traits/HasSharedLogic.php:70 | unsetting a key keeps the payload well formed |
| Payloads.EmptyWellFormed | src/Traits/HasSharedLogic.php:25 | the empty initial payload is well formed |
| Payloads.LookupSet | src/Traits/HasSharedLogic.php:46 | after assigning `k`, reading `k` gives the new value and every other key reads as before |
| Payloads.LookupUnset | src/Traits/HasSharedLogic.php:70 | after unsetting `k`, `k` is absent and every other key reads as before |
| Payloads.SetAppends | src/Traits/HasSharedLogic.php:46 | assigning a key the payload lacks appends exactly one entry at the end |
| Payloads.SetInPlace | src/Traits/HasSharedLogic.php:46 | assigning a present key replaces its entry at the same position and leaves the others alone |
| Payloads.SetOverwrites | src/Traits/HasSharedLogic.php:46 | of two assignments to one key the second wins |
| Payloads.SetSameValue | src/Traits/HasSharedLogic.php:46 | assigning a key the value it already has changes nothing |
| Payloads.UnsetUndoesSet | src/Traits/HasSharedLogic.php:70 | unsetting a freshly added key gives back the payload before it was added |
| Payloads.UnsetIdempotent | src/Traits/HasSharedLogic.php:68-73 | calling `normal()` twice is calling it once |
| Payloads.UnsetAbsent | src/Traits/HasSharedLogic.php:70 | unsetting an absent key changes nothing |
| Payloads.MergeEmpty | src/Traits/HasSharedLogic.php:211 | merging no options changes nothing |
| Payloads.MergeFreshAppends | src/Traits/HasSharedLogic.php:211 | options whose keys are all new are appended in their own order |
| Payloads.MergeIdempotent | src/Traits/HasSharedLogic.php:211 | merging the same options twice is merging them once |
| Payloads.MergeSingle | src/Traits/HasSharedLogic.php:211 | merging a one-key array is assigning that key |
| Payloads.EntriesOf | src/TelegramFile.php:161 | iterating the payload yields one entry per key, in key order, each with that key's value |
| ArrayChunk.Chunk | src/Traits/HasSharedLogic.php:301 | the rows flatten back to the buttons, each row has 1 to `n` buttons, and all rows but the last have exactly `n` |
| ArrayChunk.LayoutIsUnique | src/Traits/HasSharedLogic.php:301 | any full rows that flatten to the buttons are the `array_chunk` rows |
| ArrayChunk.ChunkAppend | src/Traits/HasSharedLogic.php:127-132 | adding one button opens a new row when the last row is full and otherwise extends the last row |
| ArrayChunk.ChunkRowCount | src/TelegramMessage.php:155 | a non-empty list gives at least one piece, and one longer than `n` at least two |
| SharedLogic.ModeString | src/Traits/HasSharedLogic.php:80-85 | a raw mode string is stored as given; an enum mode stores one of `Markdown`, `HTML`, `MarkdownV2` |
| SharedLogic.ModeTextInjective | src/Enums/ParseMode.php:7-9 | distinct parse modes store distinct strings |
| SharedLogic.Builder.constructor | src/Traits/HasSharedLogic.php:21-34 | a new builder has an empty payload, no token, no keyboard or inline buttons and no send condition |
| SharedLogic.Builder.Put | src/Traits/HasSharedLogic.php:46 | one key assignment: the key reads back as the value, nothing but the payload changes |
| SharedLogic.Builder.To | src/Traits/HasSharedLogic.php:44-49 | `chat_id` is assigned, `toNotGiven()` becomes false, nothing else changes |
| SharedLogic.Builder.KeyboardMarkup | src/Traits/HasSharedLogic.php:58-63 | `reply_markup` is assigned the markup |
| SharedLogic.Builder.Normal | src/Traits/HasSharedLogic.php:68-73 | `parse_mode` is removed and the rest of the payload is the old one without it |
| SharedLogic.Builder.ParseMode | src/Traits/HasSharedLogic.php:80-85 | `parse_mode` is assigned the mode's string |
| SharedLogic.Builder.Keyboard | src/Traits/HasSharedLogic.php:97-116 | one keyboard button is appended; with `columns >= 1` the markup is the keyboard rows, one-time and resized; with `columns < 1` the payload is unchanged (the layout throws) |
| SharedLogic.Builder.UpdateInlineKeyboard | src/Traits/HasSharedLogic.php:298-303 | the markup becomes the inline buttons in rows of `columns`, or the payload is unchanged when `columns < 1` |
| SharedLogic.Builder.Button | src/Traits/HasSharedLogic.php:127-132 | exactly one URL button is appended and the markup is all inline buttons in rows |
| SharedLogic.Builder.ButtonWithCallback | src/Traits/HasSharedLogic.php:143-151 | exactly one callback button is appended and the markup is all inline buttons in rows |
| SharedLogic.Builder.ButtonWithWebApp | src/Traits/HasSharedLogic.php:162-170 | exactly one web-app button is appended and the markup is all inline buttons in rows |
| SharedLogic.Builder.DisableNotification | src/Traits/HasSharedLogic.php:177-182 | `disable_notification` is assigned the flag |
| SharedLogic.Builder.Token | src/Traits/HasSharedLogic.php:189-202 | the token is set and `hasToken()` holds |
| SharedLogic.Builder.Options | src/Traits/HasSharedLogic.php:209-214 | the payload becomes the merge of the old payload and the options |
| SharedLogic.Builder.SendWhen | src/Traits/HasSharedLogic.php:237-250 | after `sendWhen(c)`, `canSend()` is `c` |
| SharedLogic.Builder.GetPayloadValue | src/Traits/HasSharedLogic.php:266-269 | an absent key reads as null, a present one as its value |
| MessageText.EscapeCons | src/TelegramMessage.php:59-65 | escaping works character by character: a backslash is doubled, a special character gets one backslash, anything else is kept |
| MessageText.EscapeRoundTrip | src/TelegramMessage.php:57-68 | reading an escaped line back (a backslash stands for the next character) gives the original line |
| MessageText.EscapeAppend | src/TelegramMessage.php:57-68 | escaping two texts joined is escaping each and joining |
| MessageText.EscapePlain | src/TelegramMessage.php:61-65 | text with no backslash and no special character is left unchanged |
| MessageText.EscapeLength | src/TelegramMessage.php:57-68 | the escaped line is longer by the number of backslashes plus the number of special characters |
| MessageText.WrapBreaks | src/TelegramMessage.php:152 | word wrapping breaks only at spaces, at strictly increasing positions |
| MessageText.WordWrapJoin | src/TelegramMessage.php:152 | the word-wrapped pieces joined with spaces are the text |
| MessageText.WordWrapNoSpace | src/TelegramMessage.php:152-155 | a text with no space stays one piece, so the fixed-size split is taken |
| MessageText.ChunkStrings | src/TelegramMessage.php:144-157 | a text that fits the limit is the single chunk; a longer one gives at least two chunks |
| MessageText.ChunkStringsWrapped | src/TelegramMessage.php:150-156 | when word wrapping splits the text, the chunks joined with spaces are the text |
| MessageText.ChunkStringsFallback | src/TelegramMessage.php:150-155 | in the fixed-size fallback the chunks concatenate to the text, each has at most `min(limit, 4096)` characters, and all but the last have exactly that many |
| MessageText.ChunkStringsNoSpace | src/TelegramMessage.php:150-155 | a long text with no space is always cut into fixed-size pieces |
| MessageText.KeptIndices | src/TelegramMessage.php:118-120 | the filtered chunks keep their original indices: in range, strictly increasing, each kept, and every kept index present |
| MessageText.KeptIndicesCount | src/TelegramMessage.php:118-119 | there are as many kept indices as filtered chunks |
| MessageText.KeptIndicesFilter | src/TelegramMessage.php:118-120 | the kept indices pick out the filtered chunks, in order |
| MessageText.OutgoingCount | src/TelegramMessage.php:115-121 | one payload is sent per kept chunk |
| MessageText.OutgoingTexts | src/TelegramMessage.php:118-121 | the j-th payload sent carries the j-th kept chunk as its text |
| MessageText.OutgoingKeepsParams | src/TelegramMessage.php:121 | apart from `text` and `reply_markup`, each payload sent is the parameters unchanged |
| MessageText.OutgoingMarkup | src/TelegramMessage.php:116-124 | only the last payload can carry the markup, and it does exactly when the chunk at the last original index was kept |
| MessageText.KeptLast | src/TelegramMessage.php:116-122 | a kept index is the last original index exactly when it is the last kept one and the last chunk is kept |
| MessageText.OutgoingLastKept | src/TelegramMessage.php:116-124 | when the last chunk is kept, something is sent |
| MessageText.SplitForSendingSpec | src/TelegramMessage.php:108-125 | the text must be a string; then one payload goes out per kept chunk, in order, each the payload with only `text` replaced, and a truthy `reply_markup` sits only on the chunk at the last original index, so it is sent nowhere when that chunk is skipped; a falsy markup stays in every payload's parameters |
| MessageText.ChunkedPayloadsAsWritten | src/TelegramMessage.php:108-125 | the payloads as the source builds them: as `SplitForSendingSpec` says, with the falsy chunks ("" and "0") skipped |
| MessageText.ChunkedPayloads | src/TelegramMessage.php:108-125 | the corrected payloads: as `SplitForSendingSpec` says, with only the empty chunks skipped |
| MessageText.OutgoingKeys | src/TelegramMessage.php:121-124 | each payload sent has the parameters' keys in order, `text` in place or appended, and `reply_markup` appended last where the markup is added |
| MessageText.ZeroChunkIsDropped | src/TelegramMessage.php:119 | as written, a chunk that is exactly "0" is not sent: "abcd0" with limit 4 sends only "abcd" |
| MessageText.KeepChunkLosesNothing | src/TelegramMessage.php:119 | skipping only empty chunks loses no character of the chunks |
| MessageText.KeepChunkLosesNoText | src/TelegramMessage.php:119 | for a long text with no space, the chunks kept by skipping only empty ones concatenate back to the text |
| Messages.TelegramMessage.constructor | src/TelegramMessage.php:21-28 | a new message holds its text then `parse_mode = Markdown`, keeps the chunk size, and does not chunk when the size is 0 |
| Messages.TelegramMessage.Content | src/TelegramMessage.php:35-43 | the text is replaced, and the chunk size changes only when a limit is given |
| Messages.TelegramMessage.Line | src/TelegramMessage.php:45-50 | the new text is the old text, the line and a newline |
| Messages.TelegramMessage.LineIf | src/TelegramMessage.php:52-55 | with a false condition nothing changes; otherwise it is `line` |
| Messages.TelegramMessage.EscapedLine | src/TelegramMessage.php:57-68 | the new text is the old text, the escaped line and a newline |
| Messages.TelegramMessage.Chunk | src/TelegramMessage.php:75-85 | the chunk size is set, and `shouldChunk()` holds exactly when it is positive |
| Messages.TelegramMessage.ChunkedSends | src/TelegramMessage.php:108-125 | the payloads a chunked message posts, as the source computes them: one per truthy chunk of the text, in order, with only `text` replaced and the markup on the chunk at the last original index alone |
| Files.PartRoundTrip | src/TelegramFile.php:161-170 | every multipart part reads back as the payload entry it came from |
| Files.LocalFilePart | src/TelegramFile.php:86-91 | a local file is stored as its handle under the type's name, with a filename exactly when a truthy one is given |
| Files.TelegramFile.constructor | src/TelegramFile.php:37-41 | a new file holds `caption` then `parse_mode = Markdown`, and its type is `document` |
| Files.TelegramFile.To | src/TelegramFile.php:50-55 | `chat_id` is assigned, and `toNotGiven()` is false unless the id is null |
| Files.TelegramFile.Content | src/TelegramFile.php:64-69 | only `caption` is assigned |
| Files.TelegramFile.File | src/TelegramFile.php:82-96 | the type is set; a local file is stored under `file`, anything else under the type's own key |
| Files.TelegramFile.Button | src/TelegramFile.php:107-115 | exactly one URL button is appended and the markup is all buttons in rows of `columns` |
| Files.TelegramFile.Options | src/TelegramFile.php:124-129 | the payload becomes the merge of the old payload and the options |
| Files.TelegramFile.ToMultipart | src/TelegramFile.php:158-172 | one part per payload entry in payload order; `file` is passed through, any other key becomes a named part, and each part reads back as its entry |
| FileTypes.FileType.IsExtensionAllowed | src/Enums/FileType.php:60-70 | an extension is allowed exactly when the kind is Document or the lower-cased extension is listed |
| FileTypes.ToArray | src/Enums/FileType.php:77-80 | the table pairs each of the eight case names with its value, in case order |
| FileTypes.CasesComplete | src/Enums/FileType.php:10-19 | every kind is one of the eight cases, and its value reads back as that kind |
| FileTypes.NamesAndValuesDistinct | src/Enums/FileType.php:12-19 | distinct kinds have distinct names and distinct values |
| FileTypes.VideoKindsShareMimeType | src/Enums/FileType.php:24-35 | Video, Animation and VideoNote, and only they, have `video/mp4` |
| FileTypes.DocumentAllowsAll | src/Enums/FileType.php:60-67 | Document accepts every extension |
| FileTypes.ExtensionCheckIgnoresCase | src/Enums/FileType.php:69 | the check gives the same answer for an extension and its lower-case form |
| FileTypes.OnlyDocumentAllowsAll | src/Enums/FileType.php:43-55 | every kind but Document rejects some extension |
| Venues.TelegramVenue.constructor | src/TelegramVenue.php:17-28 | a new venue holds latitude, longitude, title and address, in that order |
| Venues.TelegramVenue.Latitude | src/TelegramVenue.php:44-49 | only `latitude` is assigned |
| Venues.TelegramVenue.Longitude | src/TelegramVenue.php:56-61 | only `longitude` is assigned |
| Venues.TelegramVenue.Title | src/TelegramVenue.php:68-73 | only `title` is assigned |
| Venues.TelegramVenue.Address | src/TelegramVenue.php:80-85 | only `address` is assigned |
| Venues.TelegramVenue.FoursquareId | src/TelegramVenue.php:92-97 | only `foursquare_id` is assigned |
| Venues.TelegramVenue.FoursquareType | src/TelegramVenue.php:104-109 | only `foursquare_type` is assigned |
| Venues.TelegramVenue.GooglePlaceId | src/TelegramVenue.php:116-121 | only `google_place_id` is assigned |
| Venues.TelegramVenue.GooglePlaceType | src/TelegramVenue.php:128-133 | only `google_place_type` is assigned |
| Locations.TelegramLocation.constructor | src/TelegramLocation.php:29-33 | a new location holds latitude then longitude, and no recipient |
| Locations.TelegramLocation.To | src/TelegramLocation.php:42-47 | `chat_id` is assigned, and `toNotGiven()` is false unless the id is null |
| Locations.TelegramLocation.Latitude | src/TelegramLocation.php:56-61 | only `latitude` is assigned |
| Locations.TelegramLocation.Longitude | src/TelegramLocation.php:70-75 | only `longitude` is assigned |
| Locations.TelegramLocation.Options | src/TelegramLocation.php:84-89 | the payload becomes the merge of the old payload and the options |
| Contacts.TelegramContact.constructor | src/TelegramContact.php:17-21 | a new contact holds only its phone number and no recipient |
| Contacts.TelegramContact.PhoneNumber | src/TelegramContact.php:33-38 | only `phone_number` is assigned |
| Contacts.TelegramContact.FirstName | src/TelegramContact.php:45-50 | only `first_name` is assigned |
| Contacts.TelegramContact.LastName | src/TelegramContact.php:57-62 | only `last_name` is assigned |
| Contacts.TelegramContact.VCard | src/TelegramContact.php:69-74 | only `vcard` is assigned |
| Polls.TelegramPoll.constructor | src/TelegramPoll.php:17-21 | a new poll holds only its question |
| Polls.TelegramPoll.Question | src/TelegramPoll.php:33-38 | only `question` is assigned |
| Polls.TelegramPoll.Choices | src/TelegramPoll.php:45-50 | `options` is assigned the JSON list of the choices, replacing any earlier list |
| Photos.TelegramPhoto.constructor | src/TelegramPhoto.php:32-35 | a new photo holds only the photo, with no parse mode |
| Photos.TelegramPhoto.To | src/TelegramPhoto.php:44-49 | `chat_id` is assigned, and `toNotGiven()` is false unless the id is null |
| Photos.TelegramPhoto.Photo | src/TelegramPhoto.php:58-63 | only `photo` is assigned |
| Photos.TelegramPhoto.Caption | src/TelegramPhoto.php:71-76 | only `caption` is assigned |
| Photos.TelegramPhoto.Button | src/TelegramPhoto.php:86-94 | exactly one URL button is appended and the markup lays all buttons out two per row |
| Photos.TelegramPhoto.Options | src/TelegramPhoto.php:103-108 | the payload becomes the merge of the old payload and the options |
| Audios.TelegramAudio.constructor | src/TelegramAudio.php:18-22 | a new audio holds the audio then `parse_mode = Markdown`, and no recipient |
| Audios.TelegramAudio.Create | src/TelegramAudio.php:24-27 | `create` builds the same payload as the constructor |
| Audios.TelegramAudio.Audio | src/TelegramAudio.php:34-39 | only `audio` is assigned |
| Updates.TelegramUpdates.constructor | src/TelegramUpdates.php:13 | a new query has an empty payload |
| Updates.TelegramUpdates.Create | src/TelegramUpdates.php:15-18 | `create` starts from an empty payload |
| Updates.TelegramUpdates.Limit | src/TelegramUpdates.php:25-30 | `limit` is assigned the limit, or null when none is given |
| Updates.TelegramUpdates.Options | src/TelegramUpdates.php:37-42 | the payload becomes the merge of the old payload and the options |
| LegacyMessages.Message.constructor | src/Message.php:47-50 | a new message has its content, no chat id, no action and no options |
| LegacyMessages.Message.To | src/Message.php:57-62 | only the chat id changes |
| LegacyMessages.Message.Content | src/Message.php:69-74 | only the content changes |
| LegacyMessages.Message.Action | src/Message.php:84-90 | the action text and URL are set together, nothing else changes |
| LegacyMessages.Message.Options | src/Message.php:99-104 | the options are replaced outright, not merged |
| Scenarios.MessageWithOptions | tests/Feature/TelegramMessageTest.php:93-109 | content, recipient and one option leave `text`, `parse_mode`, `chat_id`, `foo` in that order |
| Scenarios.MessagePayload | tests/Feature/TelegramMessageTest.php:93-109 | adding a button then gives the five keys in the order first written, with the one-button inline keyboard |
| Scenarios.TwoLines | tests/Feature/TelegramMessageTest.php:21-26 | two lines give both texts, each ended by a newline |
| Scenarios.EscapeAround | tests/Feature/TelegramMessageTest.php:28-34 | two plain words around `_` and `!` get a backslash before those two characters only |
| Scenarios.EscapedThenPlain | tests/Feature/TelegramMessageTest.php:28-34 | an escaped line followed by a plain line: only the first gets backslashes |
| Scenarios.PlainNotification | tests/Feature/TelegramMessageTest.php:28-34 | the test's text before `_`, "Laravel Notification", has nothing to escape |
| Scenarios.PlainChannels | tests/Feature/TelegramMessageTest.php:28-34 | the test's second phrase has nothing to escape |
| Scenarios.ChunkSwitch | tests/Feature/TelegramMessageTest.php:43-58 | `chunk(20)` turns chunking on, `chunk(0)` off, and `content(.., 10)` sets the chunk size to 10 |
| Scenarios.TwoButtons | tests/Feature/TelegramMessageTest.php:111-121 | a second button joins the first in the first row |
| Scenarios.OneKeyboardButton | tests/Feature/TelegramMessageTest.php:156-161 | one keyboard button gives one row, one-time and resized |
| Scenarios.UpdatesWithOptions | tests/Feature/TelegramUpdatesTest.php:30-45 | `limit` then an option leave `[limit, timeout]` in that order |
| Scenarios.VenueWithOptions | tests/Feature/TelegramVenueTest.php:84-99 | a venue with recipient and one option holds the four constructor keys, `chat_id` and the option |
| Scenarios.FullContact | tests/Feature/TelegramContactTest.php:47-70 | a contact has no recipient until `to`, and with all setters holds exactly five keys |
| Scenarios.PollWithChoices | tests/Feature/TelegramPollTest.php:41-52 | a poll with recipient and two choices holds exactly the question, `chat_id` and the choices |
| Scenarios.RemoteDocumentParts | src/TelegramFile.php:158-172 | a remote document gives three named parts: caption, parse mode, then the document under its kind |
| Scenarios.LocalUploadParts | src/TelegramFile.php:82-96 | a local upload with a filename gives caption, parse mode, then the `file` entry passed through |

## Left out

- HTTP and API transport are left out. That covers `send()`, `get()`, the
  `sleep(1)` pacing, decoding responses and the filtering of empty
  responses in chunked sending. `Messages.TelegramMessage.ChunkedSends`
  gives the payloads the source would post (skipping a chunk "0" as it
  does), not the responses.
- Framework plumbing is left out: the channel and its routing, the service
  provider, the base class's container lookup, events and contracts.
- `view()` renders a Blade view and is left out.
- `onError` stores a closure and is left out.
- `jsonSerialize` is the same as `toArray`.
- `SharedLogic.Builder.SendWhen`: only the boolean condition is modelled. A
  callable goes through the `Conditionable` trait, which is not part of
  this model.
- Exact JSON text is not modelled. Keyboard markup and poll choices are
  kept as structured values (`Json(...)`), not as the `json_encode` string
  with its `\/` escaping.
- `Messages.TelegramMessage.Text`: a JSON value converts to "" and not to
  its JSON text. Only a string `text` is ever appended to by the builders.
- `Files.TelegramFile.File`: whether the argument names a local file
  (`is_file`), and the handle `fopen` returns, are inputs to the method.
- `MessageText.ChunkStrings`: display width (`mb_strwidth`) is the number
  of characters, and `mb_str_split` cuts by characters. Wide characters
  and byte/character differences are not modelled.
- `MessageText.WordWrap`: the model assumes the text does not contain the
  separator `%#TGMSG#%`. A text that does would be split at it as well.
- `MessageText.ChunkStrings`: the width passed to `wordwrap` is the
  character count of the words. Only the break positions of PHP's
  `wordwrap` with a multi-character break and no cut are modelled.
- `Messages.TelegramMessage.EscapedLine`: `preg_replace_callback` returning
  null (a regex failure) is not modelled. The fixed pattern cannot fail on
  valid text.
- Coordinates are stored as opaque `Value`s. No floating point is
  involved.
- `Payloads.Merge`: option arrays are string-keyed. PHP renumbers integer
  keys in `array_merge`, which never happens to the payload keys used
  here.
- The payload fields of the builder classes carry no class invariant.
  `WellFormed` is instead proved preserved by every payload operation
  (`SetWellFormed`, `UnsetWellFormed`, `MergeWellFormed`, `EmptyWellFormed`).
  `Options` requires well-formed options, because a PHP array never
  repeats a key.
- `Payloads.EntriesOf`: the value of an entry is tied to the map only for
  a well-formed payload.
- PHP type coercion is not modelled. Setters take the types their
  signatures declare, and the untyped ones take any `Value`.
- The `create()` of TelegramContact and TelegramPoll passes a string where
  the constructor expects a client, so it cannot work. Only the
  constructors are modelled, without the client argument.
- The `create()` factories of TelegramMessage, TelegramFile,
  TelegramLocation, TelegramPhoto and TelegramVenue only call the
  constructor, so they are not modelled separately. Audio's is
  (`Audios.TelegramAudio.Create`).
- `Polls.TelegramPoll.Choices`: the choices are a list of values. An
  associative array would encode as a JSON object and is not modelled.
- The `HasCaption` trait is used by no class, so it is not modelled.
- API that only the tests use is not modelled, because the source lacks it:
  - the file tests' `photo`, `audio`, `document`, `hasFile` and the
    enum-typed `type`;
  - the updates tests' `latest` and `toArray`;
  - the audio tests' `caption`.
- The keyboard tests pass the named arguments `request_contact` and
  `request_location`. The source declares `requestContact` and
  `requestLocation`, and the model uses those names.
- `Scenarios.EscapedThenPlain` and `Scenarios.MessageWithOptions` take the
  words of the tests as parameters. `PlainNotification` and
  `PlainChannels` show the tests' words meet `EscapedThenPlain`'s
  precondition.

## Findings

| source | as written | input that shows it | evidently intended | confidence | as-written member | corrected member |
|---|---|---|---|---|---|---|
| src/TelegramMessage.php:119 | `->filter()` with no callback drops every falsy chunk, so a chunk that is exactly "0" is never sent and its text is lost | text "abcd0" with chunk size 4: `chunkStrings` gives "abcd" and "0", and only "abcd" is sent | skip only empty chunks, so that the chunks sent still hold the whole text | not executed | MessageText.ZeroChunkIsDropped | MessageText.KeepChunkLosesNothing |
