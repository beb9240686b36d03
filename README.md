# Agent chat client and relay server, modelled in Dafny

The repository is a small web chat with a Mistral agent. A browser page
keeps the conversation in `localStorage` through a `MessageManager`: a
newest-first list of at most 100 entries, each with a role (`user`,
`agent` or `system`), a content, a timestamp and an id. The page sends
each user message to an Express server. The server forwards a request to
the Mistral agents completions API and passes the reply back.

This project models:

- the transcript store as a class with a `seq` field: loading with
  validation, a stable sort and the cap, adding, saving with the
  halve-on-quota retry, clearing and deleting. It sits over a class that
  models the key–value store. Its writes fail with a quota error when a
  value exceeds the room the store grants, and a "blocked" store throws on
  every write and removal;
- the page's handlers as a class holding the input text and the
  input-enabled flag: sending a message, setting a system message,
  clearing the chat and deleting all data. Each remote outcome is a
  parameter;
- `formatMessageContent`, the two chained replacements that turn URLs into
  links and backslash-`n` pairs into `<br>`;
- the server's `/chat`, `/set-system-message` and `/clear-history` routes,
  as pure functions from the request body and the remote outcome to a
  status and a JSON body.

Modules: `Wrappers` (Option), `Bounds` (Min, Max), `Json` (JSON values as
`JSON.parse` produces them, property access, truthiness, an abstract
size), `Text` (JavaScript `trim` and decimal rendering), `Messages`
(roles, `isValidMessage`, the entry ↔ JSON mapping), `Storage`,
`MessageStore` (the pure rules and the `MessageManager` class),
`MessageStoreProps` (properties of the store), `Format`, `Client` and
`Server`.

What the code does, where it differs from what one might expect:

- Model replies are stored with role `agent`.
- A system instruction is an ordinary `system` entry whose text starts
  with `System Instruction: `. It is not kept anywhere else, and clearing
  the chat removes it with everything else.
- The page posts only `{ message }`. The server never forwards `message`
  and reads a `messages` history that the page never sends. So the agent
  always receives an empty window (`Server.PagePostsNoHistory`).
- `sendMessage` returns before disabling the input when the text is
  blank. The enabled flag is then left as it was. On every other path it
  ends enabled.
- The server's `/set-system-message` accepts any truthy `message`,
  whitespace-only text included, and stores nothing.

## Model

| member | source | states |
|---|---|---|
| Json.Get | src/index.js:44-46 | a key lookup on a parsed object finds nothing exactly when no member has the key; otherwise it finds the value of the last member with that key |
| Json.Truthy | server.js:70 | a value is falsy exactly when it is `null`, `false`, `0` or the empty string |
| Text.TrimStart | src/index.js:160 | the result is what is left after dropping leading whitespace: a suffix, everything dropped is whitespace, and it does not start with whitespace |
| Text.TrimEnd | src/index.js:160 | the mirror image for trailing whitespace |
| Text.Trim | src/index.js:160 | the trimmed text is no longer than the input and neither starts nor ends with whitespace |
| Text.TrimIsSlice | src/index.js:160 | `trim` yields a slice of the input with only whitespace on either side |
| Text.TrimEmptyIffAllSpace | src/index.js:160-161 | the trimmed text is empty exactly when every character is whitespace |
| Text.NatToString | server.js:53 | the decimal rendering of a status has at least one digit, only digits, and no leading zero |
| Text.NatToStringRoundTrip | server.js:53 | reading the rendered digits back gives the number |
| Messages.RoleName | src/index.js:44 | each role's stored name is recognised as that role |
| Messages.RoleOf | src/index.js:44 | a name is a role exactly when it is `user`, `agent` or `system` |
| Messages.ValidIffWritable | src/index.js:41-47 | a stored value passes `isValidMessage` exactly when it is an object whose `role`, `content` and `timestamp` members are what the client writes for some entry: a role's name, a string and a number |
| Messages.Decode | src/index.js:41-47 | an entry is read exactly when it is valid (an object with a known role, string content and numeric timestamp), and the message read carries those members |
| Messages.Encode | src/index.js:50-55 | a written entry is an object with one member per key, four of them, or three when the entry has no id |
| Messages.DecodeEncode | src/index.js:41-55 | every entry the client creates passes validation and reads back unchanged |
| Storage.Store.constructor | src/index.js:21 | the store starts with the given contents and limits |
| Storage.Store.SetItem | src/index.js:70 | the write reports `WriteError`, and the key is updated only when there is no error |
| Storage.Store.RemoveItem | src/index.js:88 | removal fails exactly when the store is blocked, and removes only that key otherwise |
| Storage.EmptyArrayFits | src/index.js:73-76 | writing the empty list never fails for lack of room, so the halving retry ends |
| MessageStore.ValidMessages | src/index.js:32 | the filter never yields more entries than it was given |
| MessageStore.Insert | src/index.js:33 | inserting adds exactly the one entry to the multiset and nothing else |
| MessageStore.InsertKeepsOrder | src/index.js:33 | inserting into a newest-first list keeps it newest first |
| MessageStore.SortNewestFirst | src/index.js:33 | the sort is a permutation and leaves the list newest first |
| MessageStore.Cleaned | src/index.js:31-34 | load-time cleaning yields min(valid, 100) entries, newest first, a sub-multiset of the valid entries, and all of them when there are at most 100 |
| MessageStore.LoadMessages | src/index.js:19-39 | loading yields at most 100 entries, newest first; nothing stored, unparsable text and a non-array value give the empty list; an array gives its cleaned entries |
| MessageStore.Prepended | src/index.js:57-62 | after `unshift` and the cap, the length is min(old + 1, 100), the new entry is first, and the rest is the old list's prefix in order |
| MessageStore.Retained | src/index.js:68-79 | the list a save settles on is a prefix (the newest entries) of the list it started with, and fits the store unless the store is blocked; a blocked store, or a list that already fits, leaves the list as it is |
| MessageStore.MessageManager.constructor | src/index.js:14-17 | a new manager holds what loading the key gives, at most 100 entries |
| MessageStore.MessageManager.AddMessage | src/index.js:49-66 | the returned entry carries the given role, content, time and id; the list becomes what the save retains of the prepended list; the store holds that list under the key unless blocked; the cap holds |
| MessageStore.MessageManager.SaveMessages | src/index.js:68-79 | it keeps the cap of 100; on quota errors the newest half is kept and the write retried; on other errors the list is unchanged and the store untouched; nothing is reported to the caller |
| MessageStore.MessageManager.ClearMessages | src/index.js:81-84 | the list is empty, so within the cap, and the empty list is saved |
| MessageStore.MessageManager.DeleteAllData | src/index.js:86-93 | it keeps the cap; when the removal succeeds the key is gone and the list empty; when it throws, both are unchanged |
| MessageStore.MessageManager.GetMessages | src/index.js:95-97 | the current list is returned |
| MessageStoreProps.ValidMessagesAppend | src/index.js:32 | the filter distributes over concatenation |
| MessageStoreProps.ValidMessagesSnoc | src/index.js:32 | one more entry at the end is kept, decoded, exactly when valid |
| MessageStoreProps.ValidMessagesMembers | src/index.js:32 | a message survives the filter exactly when some stored entry decodes to it |
| MessageStoreProps.ValidMessagesSingle | src/index.js:32 | a single entry is kept exactly when it is valid |
| MessageStoreProps.DropsOnlyInvalid | src/index.js:32 | an invalid entry is dropped on its own, the entries around it kept in order |
| MessageStoreProps.KeepsAllValid | src/index.js:32 | a valid entry is always kept, at its place between its neighbours' results |
| MessageStoreProps.ValidMessagesEncodeAll | src/index.js:32 | a serialised list passes the filter whole, unchanged and in order |
| MessageStoreProps.SortKeepsNewestFirst | src/index.js:33 | a list already newest first is left as it is by the sort |
| MessageStoreProps.InsertBeforeTies | src/index.js:33 | an inserted entry goes before the entries with its timestamp, which keep their order |
| MessageStoreProps.SortIsStable | src/index.js:33 | the sort is stable: the entries with any one timestamp come out in their stored order |
| MessageStoreProps.KeepsNewest | src/index.js:31-34 | every valid entry cut off by the cap is no newer than any entry kept |
| MessageStoreProps.RestartRoundTrip | src/index.js:19-39 | a newest-first list of at most 100 entries, once saved, loads back unchanged |
| MessageStoreProps.PrependedNewestFirst | src/index.js:57-62 | when the clock has not gone back, adding keeps the list newest first |
| MessageStoreProps.AddKeepsOrder | src/index.js:57-64 | after an add, whatever the save drops, the list is empty or starts with the new entry followed by the old list's prefix |
| MessageStoreProps.AddWithRoom | src/index.js:57-64 | with room in the store, the length after an add is min(old + 1, 100), the new entry first and the old prefix after it |
| MessageStoreProps.FitsPrefix | src/index.js:75 | a list that fits still fits with its oldest entries dropped |
| MessageStoreProps.HalveTimes | src/index.js:75 | `k` rounds of halving give a prefix of the list |
| MessageStoreProps.RetainedIsFirstFit | src/index.js:73-76 | the save keeps the first list of the halving chain that the store accepts |
| MessageStoreProps.RetainedIsLongestFit | src/index.js:73-76 | no list of the halving chain that fits is longer than the one kept |
| MessageStoreProps.HalveTimesShrinks | src/index.js:75 | more rounds of halving never give a longer list |
| Format.SchemeLength | src/index.js:221 | the scheme matched is 8 long exactly when the text starts with `https://`, 7 exactly when it starts with `http://` but not `https://`, and nothing otherwise |
| Format.RunLength | src/index.js:221 | the run `[^\s]*` is the longest prefix without whitespace |
| Format.LinkUrls | src/index.js:220-223 | the link replacement never shortens the text and leaves only the empty text empty |
| Format.BreakLines | src/index.js:226 | the second replacement leaves no backslash-`n` pair, and leaves the empty text empty |
| Format.FormatMessageContent | src/index.js:218-227 | formatting leaves only the empty text empty and leaves no backslash-`n` pair in what it shows |
| Format.LinkUrlsPlain | src/index.js:220-223 | text with no URL scheme goes through the link replacement unchanged |
| Format.LinkUrlsSingle | src/index.js:220-223 | a URL standing alone becomes exactly one link |
| Format.RunLengthAll | src/index.js:221 | text without whitespace is a single run |
| Format.LinkUrlsSplitsAtSpace | src/index.js:220-223 | no link reaches across whitespace: the replacement works on each side of a whitespace character separately |
| Format.LinkUrlsStep | src/index.js:220-223 | where no match starts, the first character is copied and the scan moves on by one |
| Format.LinkUrlsSkip | src/index.js:220-223 | text where no match starts at any position is copied as it is, whatever follows it |
| Format.LinkUrlsAtMatch | src/index.js:220-223 | where a match starts it becomes one link, and the scan resumes right after it |
| Format.LinkUrlsAfterText | src/index.js:220-223 | a URL that follows other text in the same word, as in `(https://x` or after a backslash-`n`, is linked too, the text before it kept |
| Format.BreakLinesPlain | src/index.js:226 | text without a backslash-`n` pair goes through the second replacement unchanged |
| Format.FormatPlain | src/index.js:218-227 | text with no URL scheme and no backslash-`n` is shown exactly as stored |
| Format.BreakLinesAtPair | src/index.js:226 | every backslash-`n` pair becomes `<br>`, whatever text stands on either side |
| Format.BreakLinesKeeps | src/index.js:226 | a character that does not start a backslash-`n` pair is kept as it is |
| Format.BreakLinesPair | src/index.js:226 | a pair at the front becomes `<br>` |
| Client.ReplyEntry | src/index.js:181-192 | the entry after a send is an `agent` entry with the reply exactly when the server answered with a 2xx status; otherwise it is a `system` entry: `Error: Server responded with status: ` and the status for any other answer, and `Error: ` and the thrown message when the call threw |
| Client.InstructionEntry | src/index.js:141-150 | the system-message entry is `System Instruction: ` and the text on success, and the failure text with the error on either kind of failure |
| Client.SendTranscript | src/index.js:166-193 | the list after a send holds at most 100 entries, and the newest of them, if any is kept, is the outcome entry |
| Client.ChatClient.constructor | src/index.js:2-7 | the page starts with an empty, enabled input box, and the handlers' invariant (the cap, input enabled) holds |
| Client.ChatClient.SendMessage | src/index.js:159-197 | the invariant is kept; blank input changes nothing; otherwise the box is emptied, input ends enabled, the list gets the trimmed user entry then the outcome entry (each through the add rule), and the store holds the result |
| Client.ChatClient.RecordTurn | src/index.js:166-193 | the user's entry, then the outcome's entry, are added and saved, and the box is emptied |
| Client.ChatClient.SetSystemMessage | src/index.js:127-156 | the invariant is kept; a cancelled or blank prompt changes nothing; otherwise one `InstructionEntry` is added, saved, and input ends enabled |
| Client.ChatClient.RecordInstruction | src/index.js:131-153 | one `InstructionEntry` is added and saved, the box keeps its text, and input ends enabled |
| Client.ChatClient.ClearChat | src/index.js:244-255 | the invariant is kept; any server answer empties the box and the list and saves the empty list; a call that throws adds the `Error: Failed to clear chat history` entry instead |
| Client.ChatClient.DeleteAll | src/index.js:257-260 | the invariant is kept; deleting forgets the key and empties the list unless the store is blocked, in which case nothing changes |
| Client.SendWithRoom | src/index.js:168-192 | with room in the store a send adds exactly two entries on top of the old list: the outcome, then the user's text |
| Server.Slice | server.js:36 | `slice(start)` keeps max(n − start, 0) elements for a non-negative start and min(−start, n) for a negative one, always a suffix |
| Server.BuildPayload | server.js:29-37 | a missing body throws; absent `messages` default to `[]`; an array or a string is cut to its last min(10, n) elements; anything else throws; `agent_id` is always the configured one |
| Server.StatusError | server.js:52-54 | the error for a non-ok reply starts with `Mistral API responded with status: ` and has the status after it |
| Server.Answer | server.js:59 | the success body holds `response` when the reply has it and is `{}` otherwise |
| Server.Chat | server.js:27-64 | the status is 200 or 500; it is 200 exactly when the payload was built, the API answered 2xx with a non-null JSON body, and then the body is `{ response }`; every 500 carries `{ error }`, with the engine's, the network's or the status message |
| Server.SetSystemMessage | server.js:67-84 | 500 exactly when the body is missing; 200 `{ success: true }` exactly when `message` is truthy; 400 `System message is required` otherwise |
| Server.ClearHistory | server.js:87-96 | always 200 `{ success: true }` |
| Server.StatusErrorNamesStatus | server.js:53 | the digits in the status error read back as the status the API sent |
| Server.PagePostsNoHistory | server.js:29-36 | a body that holds only `message` is forwarded with an empty `messages` window |
| Server.ForwardsNewest | server.js:36 | of the posted messages at most ten are forwarded, the newest, in their original order |

## Left out

- Rendering and the DOM are left out: `displayMessages`, `formatTimestamp`
  (`Intl` formatting), the styling in `setInputState`, the button wiring.
  So are `confirm` and `prompt`; the prompt's answer is a parameter of
  `Client.ChatClient.SetSystemMessage`. The input box and the
  enabled flag are kept as two fields.
- The network is left out: `fetch`, Express routing, CORS, the logging
  middleware, the request headers and `app.listen`. Each remote outcome
  is a parameter: `Client.Fetched` for the page, `Server.Reply` for the
  completions API.
- `Date.now` and `crypto.randomUUID` become a `Stamp` parameter. `JSON.parse`
  and `JSON.stringify` are replaced by a JSON value datatype. A stored text
  is either a parsed value or one the parser rejects.
- Timestamps are integers. A fractional JSON number is not modelled.
- Messages.Decode: a loaded entry keeps its `id` only when it is a string,
  and members other than the four are dropped. The source keeps such
  entries as they are.
- Storage.Store.GetItem: reads never fail. The catch in `loadMessages`
  (src/index.js:35-38) also covers a `getItem` that throws (line 21); the
  model has no such store, so that path is not modelled.
- Storage.WriteError: the quota is a threshold on an abstract size of the
  value under one key. The browser's real accounting (bytes, all keys
  together) is not modelled. "Blocked" makes every write and removal
  throw a non-quota error, always the same way.
- MessageStore.Retained: every store is assumed to have room for the empty
  list. Without that, the source's retry would recurse for ever on a list
  of length zero.
- Server.BuildPayload: strings are sequences of Unicode code points, so a
  string `messages` is cut to its last ten code points. JavaScript's
  `slice(-10)` (server.js:36) counts UTF-16 code units, so a string holding
  characters outside the Basic Multilingual Plane is cut differently (it
  keeps fewer characters, or starts with half of a surrogate pair).
- Server.Chat: the texts of the engine's own errors (destructuring a
  missing body, `slice` not a function, a reply that does not parse,
  `data.response` on `null`) are given by a parameter.
- Client.ReplyEntry: a 2xx reply is assumed to carry a string
  `response`. When it does not, as when the server answers `{}` because
  the agent's reply had no `response` member (`Server.Answer`), the page
  stores an `agent` entry whose `content` is `undefined`
  (src/index.js:188). An entry without string content cannot be
  represented in this model, so that case is not covered. A 2xx body that
  does not parse on the page is a `Rejected` outcome carrying the
  parser's message.
- The `systemMessage` and `conversationHistory` locals of the server
  (server.js:74, 90) are built and thrown away, so they are not modelled.
- Client.ChatClient.SendMessage, Client.ChatClient.RecordTurn,
  Client.ChatClient.SetSystemMessage and Client.ChatClient.ClearChat are
  modelled as atomic: handlers do not interleave. In the page each of
  them awaits a `fetch` (src/index.js:133, 173, 246), and `setInputState`
  (237-242) disables only the input box and the send button. So Clear,
  Delete all and the system-message button can run while a `/chat`
  request is out, and that button's `finally` (153) re-enables sending
  while the first request is still pending. The model does not capture
  these interleavings.
- A `displayMessages` call that throws is not modelled.
- `vite.config.js` is development-server configuration and is not part of
  this model.
