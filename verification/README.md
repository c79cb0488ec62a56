# Chat client core, modelled in Dafny

This project models the logic of an iOS chat client for an AI agent service.
It does not model the client's screens. It covers two parts.

The first is the streaming pipeline. The client sends a prompt and reads the
agent's reply as a stream of text lines. Each line is tagged `f:`, `0:`,
`9:`, `a:`, `e:`/`d:` or `data: `. Each line becomes at most one
`StreamChunkData` event, and the stream ends with one synthetic `done`
event that carries the whole text. The chat view model folds the events into
the visible list of `ChatMessage`s:
- accepted text opens or extends an AI message;
- tool calls and tool results become their own messages;
- the AI message in front of a tool event is marked `hasToolCallAfter`;
- a failure rewrites the open response message or appends an apology;
- every message that is kept is handed to the chat service, unless the chat
  is private.

The second part is the small model and view logic:
- the chat title derived from the first user message;
- user display names and initials, both the model's and the profile footer's;
- participant role permissions;
- shared-link expiry and validity;
- the project and message JSON codecs;
- the integer channels of `Color(hex:)`;
- the tool details sheets (`formatKey`, the `\n` unescape, the value
  classifiers and their priority, sections in key order);
- the search filters of the rules sheet and the sidebar lists;
- the command bar's height, send and mode rules;
- the sign-in verification code and back button.

Several things outside the client's own logic become parameters:
- HTTP: a status code, an optional body and a finite list of lines;
- JSON text parsing: a function `string -> Option<Json>` over a pre-parsed
  JSON value;
- `String(describing:)`: a function `Json -> string`;
- `UUID()`: a counter with an injective `FreshId`;
- `Date()`: an integer `now`;
- persistence: an append-only outbox of submissions.

Cancelling a stream is modelled as cutting the line list short.

The model follows the code as written, quirks included:
- `e:` and `d:` lines yield no event of their own and do not stop decoding;
- `0:` payloads only lose their surrounding double quotes and are not
  JSON-unescaped;
- the synthetic final event is dropped by the view model only when its text
  is longer than 100 characters, so a short answer is shown twice;
- `streamResponse` never reads an event's `error` field; only the
  initial-message loop does;
- the 8-digit colour case reads RRGGBBAA although the comment beside it says
  ARGB;
- `Color(hex:)` strips non-alphanumerics only at the two ends of the text,
  not everywhere;
- `Scanner.scanHexInt64` also accepts a `0x`/`0X` prefix.

Files:
- `wrappers.dfy`, `text.dfy` and `json.dfy` are shared helpers:
  - `Option`;
  - ASCII character classes, case mapping, trimming, prefixes, substring
    search and decimal rendering;
  - the JSON value.
- `agents_service.dfy` is the request, the status switch and the line decoder.
- `stream_chunk.dfy` is the event record and its codec.
- `chat_message.dfy` holds the message factories and the message codec.
- `chat_view_model.dfy` holds sending, the event fold, tool messages, errors
  and the initial-message loop.
- `chat_stream_properties.dfy` and `chat_stream_scenarios.dfy` hold
  properties of the whole pipeline and worked streams.
- The remaining files follow the source file of the same name.

## Model

| member | source | states |
|---|---|---|
| AgentsService.NewRequest | webs-ios/Services/AgentsService.swift:8-22 | The request carries exactly one user message with the prompt and the given thread id. The resource id defaults to the thread id only when a thread id is given and no resource id is. |
| AgentsService.NewRequestDefaulting | webs-ios/Services/AgentsService.swift:84-122 | A request never names a thread without a resource. Defaulting the resource id in `streamChatResponse` and again in the initializer is the same as defaulting once. |
| AgentsService.CheckStatus | webs-ios/Services/AgentsService.swift:150-173 | 2xx proceeds. 400 reports `Bad Request: <body>`, or `Bad Request (400)` when the body is not UTF-8. 401 is `unauthorized`. Every other code is reported as `HTTP status code: <n>`. |
| AgentsService.StatusMessageInjective | webs-ios/Services/AgentsService.swift:170-172 | Two different unexpected status codes never give the same error: the code can be read back from the message. |
| AgentsService.ClassifyIff | webs-ios/Services/AgentsService.swift:192-316 | Each kind of line is recognised by its own prefix alone, so the order of the `else if` tests never matters. |
| AgentsService.ClassifyTag | webs-ios/Services/AgentsService.swift:192-290 | A line whose second character is a colon is classified by its first character. |
| AgentsService.CleanContent | webs-ios/Services/AgentsService.swift:198-202 | The text of a `0:` line neither starts nor ends with a double quote. |
| AgentsService.CleanContentQuoted | webs-ios/Services/AgentsService.swift:196-206 | Quoting a text that neither starts nor ends with a quote, then cleaning it, gives the text back. |
| AgentsService.DataEvent | webs-ios/Services/AgentsService.swift:291-316 | A blank `data: ` payload yields nothing. Otherwise an event is yielded exactly when the payload parses and decodes, and the event is the decoded record unchanged. |
| AgentsService.DecodeLineKinds | webs-ios/Services/AgentsService.swift:192-316 | `f:`, `e:`/`d:` and unrecognised lines yield nothing. A `0:` line always yields an event. A `9:` or `a:` line yields an event exactly when its payload parses to a JSON object. |
| AgentsService.ToolCallFields | webs-ios/Services/AgentsService.swift:219-247 | A tool-call payload with every field present yields an event titled `Tool Call: <name>` that carries the id, name and arguments intact. |
| AgentsService.ToolCallDefaults | webs-ios/Services/AgentsService.swift:228-245 | A tool-call payload missing its fields still yields an event, with an empty id, an empty name and empty arguments. |
| AgentsService.DecodeLines | webs-ios/Services/AgentsService.swift:183-317 | The line loop yields at most one event per line. |
| AgentsService.DecodeLinesCons | webs-ios/Services/AgentsService.swift:183-317 | Events come out in line order: the first line's events, then the rest's. |
| AgentsService.TextLineEvents | webs-ios/Services/AgentsService.swift:196-217 | A `0:` line yields exactly one event, its text event. |
| AgentsService.DecodeLinesAppend | webs-ios/Services/AgentsService.swift:183-317 | Decoding two runs of lines one after the other gives the two runs' events in order. |
| AgentsService.DecodeLinesPrefix | webs-ios/Services/AgentsService.swift:183-187 | A stream cancelled after any number of lines yields a prefix of the events of the whole stream. |
| AgentsService.EndMarkerDoesNotStop | webs-ios/Services/AgentsService.swift:286-290 | An `e:`/`d:` line yields nothing and does not end decoding: the lines after it are decoded as if it were absent. |
| AgentsService.FullTextEmptyIff | webs-ios/Services/AgentsService.swift:180-206 | The accumulated response text is empty exactly when every `0:` line has empty cleaned text. |
| AgentsService.FinalEvent | webs-ios/Services/AgentsService.swift:319-330 | There is at most one extra event, and it is there exactly when the accumulated text is non-empty. It carries the whole text, is marked done, is not a tool event and has no error. |
| AgentsService.DecodeBody | webs-ios/Services/AgentsService.swift:183-330 | A fully read body yields the line events unchanged as a prefix, followed by at most one more event. That event is there exactly when the accumulated text is non-empty, carries the whole text, is marked done, is not a tool event and has no error. |
| AgentsService.FullTextIsEventText | webs-ios/Services/AgentsService.swift:196-217 | Without `data: ` lines, the accumulated text is exactly the text of the plain events, in order. Every event echoes the caller's thread id and raw resource id and is not done. |
| AgentsService.LineText | webs-ios/Services/AgentsService.swift:196-290 | For any line that is not a `data: ` line, what it adds to the accumulated text is what its event shows as text. |
| AgentsService.StreamChatResponse | webs-ios/Services/AgentsService.swift:81-343 | The request uses the defaulted resource id. A missing HTTP response fails with `invalidResponse`. A non-2xx status yields no event and fails with exactly the status switch's error, except that a 400 whose body cannot be read fails with a network error. A 2xx reply that is read in full yields the decoded body. |
| AgentsService.StreamFinalEvent | webs-ios/Services/AgentsService.swift:319-330 | A successful stream yields the line events followed by at most one extra event. The extra event is present exactly when some `0:` line had text. |
| StreamChunks.Memberwise | webs-ios/Models/StreamChunkData.swift:45-66 | The memberwise initializer stores every argument it is given and leaves progress, step, timestamp and request id nil. |
| StreamChunks.MemberwiseDefaults | webs-ios/Models/StreamChunkData.swift:45-49 | Called with only its five leading arguments, the initializer marks the event as not a tool call and leaves every tool field nil. |
| StreamChunks.FromJson | webs-ios/Models/StreamChunkData.swift:24-43 | Decoding never sets the tool arguments or the tool result. Each of the twelve coding-key fields is nil when its key is absent. An empty object decodes. |
| StreamChunks.ToJson | webs-ios/Models/StreamChunkData.swift:19-22 | The encoder writes only coding keys, never the tool arguments or the tool result. |
| StreamChunks.ToJsonField | webs-ios/Models/StreamChunkData.swift:19-22 | A coding key is written exactly when its field is present, and it holds that field's value. |
| StreamChunks.FromJsonToJson | webs-ios/Models/StreamChunkData.swift:19-43 | Encoding an event and decoding it back gives the event again, except that the tool arguments and the tool result are lost. |
| StreamChunks.FromJsonErrorOnly | webs-ios/Models/StreamChunkData.swift:24-43 | An object holding only an `error` decodes to an event that carries that error and nothing else. |
| ChatMessages.TypeFromRaw | arbor-ios/Models/ChatMessage.swift:21-23 | Reading a message type from its raw value is exactly the inverse of the raw value, and nil for any other string. |
| ChatMessages.ModeFromRaw | arbor-ios/Models/ChatMessage.swift:25-26 | Reading an agent mode from its raw value is exactly the inverse of the raw value, and nil for any other string. |
| ChatMessages.CreateUserMessage | arbor-ios/Models/ChatMessage.swift:46-57 | A user message has no mode and no error. It keeps the given content, ids and time and carries no tool data. |
| ChatMessages.CreateAIMessage | arbor-ios/Models/ChatMessage.swift:59-70 | An AI message has the given mode and no error. It keeps the given content, ids and time and carries no tool data. |
| ChatMessages.CreateErrorMessage | arbor-ios/Models/ChatMessage.swift:72-83 | An error message has no mode and has the error flag set. It carries no tool data. |
| ChatMessages.CreateToolCallMessage | arbor-ios/Models/ChatMessage.swift:85-102 | A tool-call message reads `Tool Call: <name>` and carries the name and arguments. Its `toolCallId` is the given id, possibly nil. Its message id is that id, or a fresh one when none is given. |
| ChatMessages.CreateToolResultMessage | arbor-ios/Models/ChatMessage.swift:104-121 | A tool-result message carries the call id and the result, no name and no arguments, and is approved. |
| ChatMessages.Encode | arbor-ios/Models/ChatMessage.swift:171-183 | The encoder writes exactly id, chatId, userId, content, type and createdAt, plus mode when it is present. |
| ChatMessages.Decode | arbor-ios/Models/ChatMessage.swift:131-150 | A decoded message has every client-side property at its default. Its id is the object's `id` string. |
| ChatMessages.DecodeEncode | arbor-ios/Models/ChatMessage.swift:131-183 | Decoding an encoded message gives back its API fields. The error flag, the tool boundary mark and all tool fields are reset. |
| ChatMessages.DecodeEncodeFactories | arbor-ios/Models/ChatMessage.swift:46-183 | User and AI messages built by the factories survive the round trip unchanged. An error message comes back without its error flag. |
| ChatViewModels.FreshIdInjective | webs-ios/ViewModels/ChatViewModel.swift:103 | Distinct counters give distinct fresh identifiers. |
| ChatViewModels.NewViewModel | webs-ios/ViewModels/ChatViewModel.swift:26-40 | A new view model has no messages, no submissions and no input. It is idle, in the main mode, not private, and has the given chat id. |
| ChatViewModels.SetPrivateMode | webs-ios/ViewModels/ChatViewModel.swift:45-47 | Only the private flag changes, and it takes the given value. |
| ChatViewModels.CancelStream | webs-ios/ViewModels/ChatViewModel.swift:140-143 | Loading ends and nothing else changes. |
| ChatViewModels.Persist | webs-ios/ViewModels/ChatViewModel.swift:107-119 | A message is submitted to its chat only when the chat is not private and has an id. Nothing but the outbox changes. |
| ChatViewModels.Append | webs-ios/ViewModels/ChatViewModel.swift:104 | The message is added at the end and the rest of the state is kept. |
| ChatViewModels.StartNewChat | webs-ios/ViewModels/ChatViewModel.swift:50-82 | Blank input does nothing. Otherwise the chat is created with the prompt as its first message unless it is private. Success clears the input and returns the new id and the prompt. Failure reports the error and keeps the input. |
| ChatViewModels.SendMessage | webs-ios/ViewModels/ChatViewModel.swift:85-137 | Blank input, loading, or a missing chat id change nothing. Otherwise exactly one user message with the input is appended, submitted unless private, the input is cleared, and the prompt is handed to streaming. |
| ChatViewModels.AcceptsIff | webs-ios/ViewModels/ChatViewModel.swift:340-344 | A text event is used exactly when its chunk is present and not blank, and it is not a done chunk longer than 100 characters. |
| ChatViewModels.Stringify | webs-ios/ViewModels/ChatViewModel.swift:425-427 | The stored arguments have the same keys, each value rendered as text. |
| ChatViewModels.SourcesCount | webs-ios/ViewModels/ChatViewModel.swift:461-465 | There is a source count exactly when `result["content"]` is a non-empty array of objects. The count is its length. |
| ChatViewModels.ResultSummaryIff | webs-ios/ViewModels/ChatViewModel.swift:459-465 | The summary is `Tool result received` exactly when there is no source count, and `Found information from N sources` otherwise. |
| ChatViewModels.HandleToolCallChunk | webs-ios/ViewModels/ChatViewModel.swift:419-487 | A tool-call message is appended exactly when the event has an id, a name and arguments. Then a tool-result message is appended exactly when it has an id and a result. Earlier messages and settings are untouched, and nothing is submitted in a private chat. |
| ChatViewModels.HandleToolCallChunkOutbox | webs-ios/ViewModels/ChatViewModel.swift:439-485 | Outside a private chat, every message the handler appends is submitted, in order, and nothing else is. |
| ChatViewModels.ToolStep | webs-ios/ViewModels/ChatViewModel.swift:326-338 | A tool event marks the last opened response message, hands the event to the tool handler, and makes the next text open a new message. The response text is kept. |
| ChatViewModels.MarkToolCallAfter | webs-ios/ViewModels/ChatViewModel.swift:329-333 | Only the message at the given index, if it exists, gets `hasToolCallAfter`. Everything else is unchanged. |
| ChatViewModels.TextStep | webs-ios/ViewModels/ChatViewModel.swift:340-371 | An event that is not accepted changes nothing. After a tool event, or with no response open, accepted text opens a new AI message in the current mode. Otherwise the open message shows the text received so far. Nothing is submitted. |
| ChatViewModels.FoldEventsAppend | webs-ios/ViewModels/ChatViewModel.swift:320-372 | Folding two runs of events in a row is folding their concatenation. |
| ChatViewModels.RewriteOnError | webs-ios/ViewModels/ChatViewModel.swift:388-409 | On a stream error the retry message is shown. An open response message becomes the apology with `hasError` set; otherwise one error message is appended. Nothing is submitted. |
| ChatViewModels.SaveResponse | webs-ios/ViewModels/ChatViewModel.swift:374-386 | After a clean finish only the outbox may change. A non-private chat with an id submits exactly the response message, and a private chat submits nothing. Without a response message nothing changes. |
| ChatViewModels.StreamResponse | webs-ios/ViewModels/ChatViewModel.swift:304-415 | Loading always ends and the settings are kept. A failed stream shows the retry message; a clean one clears the error. |
| ChatViewModels.SendAndStream | webs-ios/ViewModels/ChatViewModel.swift:85-137 | When sending is refused nothing changes. Otherwise the input ends empty and loading ends. |
| ChatViewModels.FoldKeepsSettings | webs-ios/ViewModels/ChatViewModel.swift:320-372 | The fold never touches the private flag, the chat id, the input, the loading flag, the error text or the mode. |
| ChatViewModels.InitialLoopEnd | webs-ios/ViewModels/ChatViewModel.swift:201-260 | The inline loop stops at a done event or fails with the error of an event that carries one. It runs out only when no event carries an error. |
| ChatViewModels.InitialStream | webs-ios/ViewModels/ChatViewModel.swift:174-294 | Loading ends and the settings are kept. A private chat, as read before streaming, submits nothing. When an event carries an error, or the stream fails once the events run out, `Error: <d>` is appended after the looped messages, the error text is `Failed to get response: <d>`, and only that message is submitted unless private. A clean finish keeps the looped messages, leaves no error, and submits the response message unless private. |
| ChatViewModels.FinishInitial | webs-ios/ViewModels/ChatViewModel.swift:262-292 | On a failure the `Error: ` message is appended after the existing messages, which stay untouched, and is submitted unless private. Otherwise the messages and error are kept and the response message, if any, is submitted unless private. |
| ChatViewModels.LoadAndSendInitial | webs-ios/ViewModels/ChatViewModel.swift:160-302 | Without a chat id nothing happens, and a failed load reports the error. A history that is not exactly one user message only replaces the messages. A history of exactly one user message is answered by exactly the initial-message task on that history, with the message's text as the prompt, so its error and clean-finish outcomes apply. That message stays first and loading ends off. |
| ChatViewModels.LoadMessages | webs-ios/ViewModels/ChatViewModel.swift:147-158 | Without a chat id nothing happens. A load replaces the messages, and a failure reports the error. |
| ChatViewModels.FoldKeepsPrefix | webs-ios/ViewModels/ChatViewModel.swift:320-372 | Messages before the open response message are never changed by the fold. |
| ChatViewModels.InitialLoopKeepsOutbox | webs-ios/ViewModels/ChatViewModel.swift:282-290 | The inline loop submits nothing in a private chat. |
| ChatViewModels.InitialStreamKeepsHistory | webs-ios/ViewModels/ChatViewModel.swift:185-294 | The initial task only adds messages after the loaded history, which stays as it was. |
| ChatStreamProperties.FoldKeepsOpenMessage | webs-ios/ViewModels/ChatViewModel.swift:326-371 | Folding keeps the fold's bookkeeping true: the open response message exists, is an AI message in the current mode, and shows exactly the response text. |
| ChatStreamProperties.ToolEventSplitsResponse | webs-ios/ViewModels/ChatViewModel.swift:327-359 | A tool event marks the open message as followed by a tool call and changes nothing else about it. The next accepted text opens a new message. |
| ChatStreamProperties.AcceptedTextEmptyIff | webs-ios/ViewModels/ChatViewModel.swift:340-344 | The accepted text is empty exactly when no event is accepted. |
| ChatStreamProperties.TextOnlyKeepsOpenMessage | webs-ios/ViewModels/ChatViewModel.swift:360-371 | With a message open and no tool events, the fold keeps that message open and adds no message. |
| ChatStreamProperties.TextOnlyExtendsOpenMessage | webs-ios/ViewModels/ChatViewModel.swift:360-371 | With a message open and no tool events, every accepted chunk is appended to the response text in order. |
| ChatStreamProperties.TextOnlyFold | webs-ios/ViewModels/ChatViewModel.swift:340-371 | A stream without tool events, starting with nothing open, adds no message when no chunk is accepted. Otherwise it adds exactly one AI message, which shows all accepted text in order. |
| ChatStreamProperties.PlainTextAccepted | webs-ios/Services/AgentsService.swift:196-217 | For lines that are all non-blank `0:` lines, the decoded events hold no tool event, and their accepted text is the accumulated full text. |
| ChatStreamProperties.FinalEventAccepted | webs-ios/ViewModels/ChatViewModel.swift:341-344 | The synthetic final event's text is used only when it is at most 100 characters long. |
| ChatStreamProperties.PlainTextBody | webs-ios/Services/AgentsService.swift:319-330 | A plain-text stream has no tool events. It shows its text once, or twice when the text is at most 100 characters. |
| ChatStreamProperties.PlainTextOutcome | webs-ios/Services/AgentsService.swift:319-330 | The same holds for the events of a successful reply. |
| ChatStreamProperties.ShortAnswerShownTwice | webs-ios/ViewModels/ChatViewModel.swift:341-371 | A plain-text reply adds exactly one AI message after the history. The message holds the whole answer twice when the answer is at most 100 characters, and once otherwise. |
| ChatStreamProperties.FoldKeepsOutboxWhenPrivate | webs-ios/ViewModels/ChatViewModel.swift:439-485 | In a private chat the fold submits nothing. |
| ChatStreamProperties.FoldOutboxAppendOnly | webs-ios/ViewModels/ChatViewModel.swift:439-485 | The fold only appends to the submissions made before it. |
| ChatStreamProperties.SaveResponseOutbox | webs-ios/ViewModels/ChatViewModel.swift:374-386 | Saving submits at most the response message, after what was already submitted. |
| ChatStreamProperties.StreamResponseOutbox | webs-ios/ViewModels/ChatViewModel.swift:304-415 | Streaming a response submits nothing in a private chat and otherwise only appends. |
| ChatStreamProperties.SendAndStreamOutbox | webs-ios/ViewModels/ChatViewModel.swift:106-119 | Sending and streaming the answer submits nothing in a private chat, and otherwise only appends to the earlier submissions. |
| ChatStreamProperties.LoadAndSendInitialPrivate | webs-ios/ViewModels/ChatViewModel.swift:264-290 | Loading a private chat and answering its first message submits nothing. |
| ChatStreamProperties.InitialLoopSkip | webs-ios/ViewModels/ChatViewModel.swift:207-254 | Events that do not stop the inline loop are folded exactly as `streamResponse` folds them. |
| ChatStreamProperties.InitialLoopIsTruncatedFold | webs-ios/ViewModels/ChatViewModel.swift:201-260 | The inline loop is `streamResponse`'s fold cut at the first stopping event. An error event is not folded and ends the loop with its error. A done text event is folded and ends it. Without a stopping event the loop runs out. |
| ChatStreamScenarios.QuotedTextLine | webs-ios/Services/AgentsService.swift:196-217 | A quoted `0:` line decodes to its text, which is also what it adds to the full text. |
| ChatStreamScenarios.ToolLinesEvents | webs-ios/Services/AgentsService.swift:183-330 | For the stream `0:"Let me check"`, a tool call, its result, `0:"Found it"`, `e:` the decoder yields four line events. It then yields a final event with `Let me checkFound it`. |
| ChatStreamScenarios.ToolStreamRepeatsAnswer | webs-ios/ViewModels/ChatViewModel.swift:304-386 | That stream adds, in order: the first answer, marked as followed by a tool call; the call message; the result message; and `Found itLet me checkFound it`. The last of these is the one submitted. |
| ChatStreamScenarios.StreamResponseIgnoresError | webs-ios/ViewModels/ChatViewModel.swift:326-344 | A `data: ` event carrying only an `error` changes nothing in `streamResponse`, and no error is shown. |
| ChatStreamScenarios.InitialStreamReportsError | webs-ios/ViewModels/ChatViewModel.swift:207-210 | The initial-message loop does read that error. It appends `Error: <message>`, submits it unless the chat is private, and shows `Failed to get response: <message>`. |
| Chats.CreateNewChat | webs-ios/Models/Chat.swift:16-27 | A new chat is titled `New Chat`, with no messages, no project, an empty user id, and equal creation and update times. |
| Chats.FirstUserMessage | webs-ios/Models/Chat.swift:31 | There is no result exactly when no message is a user message. Otherwise the result is the earliest user message. |
| Chats.TitleFrom | webs-ios/Models/Chat.swift:33-40 | Content of at most 30 characters is the title as it is. Longer content is cut to 30 characters plus `...`, so a title has at most 33 characters. |
| Chats.UpdateTitleFromContent | webs-ios/Models/Chat.swift:30-42 | Only the title can change. It changes only when it is `New Chat` and some message is from the user, and then it is derived from the first user message. |
| Chats.UpdateTitleIdempotent | webs-ios/Models/Chat.swift:30-42 | Deriving the title twice is the same as deriving it once. |
| Chats.NewChatKeepsTitle | webs-ios/Models/Chat.swift:16-42 | A freshly created chat keeps the title `New Chat`. |
| Chats.HashOnlyId | webs-ios/Models/Chat.swift:45-48 | Chats with one id hash alike, and retitling never changes a chat's hash. |
| Projects.NewProject | webs-ios/Models/Project.swift:26-34 | The initializer stores `description` as the project description and keeps the image. It has no chats. |
| Projects.SameIsEquivalence | webs-ios/Models/Project.swift:36-38 | Project equality is an equivalence, and a project equals any copy with the same id whatever else differs. |
| Projects.DecodePreviews | webs-ios/Models/Project.swift:79-84 | An array of chat previews decodes exactly when every element does, and the order is kept. |
| Projects.DecodeEncodePreviews | webs-ios/Models/Project.swift:79-84 | Encoding previews and decoding them gives them back. |
| Projects.Encode | webs-ios/Models/Project.swift:65-76 | The encoder writes id, name, userId and the two dates, plus `description` only when present. It never writes the image or the chats. |
| Projects.Decode | webs-ios/Models/Project.swift:49-62 | A decoded project has no image. Its description and chats are nil when their keys are missing or null. |
| Projects.DecodeEncode | webs-ios/Models/Project.swift:49-76 | Encoding then decoding keeps the API fields and loses the image and the chats. |
| Projects.RoundTripSame | webs-ios/Models/Project.swift:36-76 | Under the project's own equality, which looks only at the id, the round trip gives back the same project. |
| Users.DisplayName | arbor-ios/Models/User.swift:20-30 | The display name is `first last` when both names exist, else the first name, else the email, else `User`. |
| Users.Initials | arbor-ios/Models/User.swift:32-44 | The initials have at most two characters, and are `U` without a first name and an email. |
| Users.LastNameNeedsFirstName | arbor-ios/Models/User.swift:21-43 | Without a first name, the last name changes neither the display name nor the initials. |
| Users.InitialsFromDisplayName | arbor-ios/Models/User.swift:20-44 | The initials are the leading letters of the display name's words: its first character, and with a last name the character after the space. |
| Users.EmptyNamesGiveNoInitials | arbor-ios/Models/User.swift:33-36 | Empty names are not skipped: two empty names give empty initials whatever the email. |
| ProfileFooter.GetInitials | arbor-ios/Views/Sidebar/Views/UserProfileFooter.swift:82-95 | The result is two letters when both names are non-empty, else the first name's letter. Without it the result is the email's first letter upper-cased, and otherwise `U`. |
| ProfileFooter.FooterAgreesWithUserInitials | arbor-ios/Views/Sidebar/Views/UserProfileFooter.swift:83-91 | With two non-empty names the footer and the user record give the same initials. With an empty first name they differ: the footer falls back to the email, the record keeps the empty first letter. |
| Participants.RoleFromRaw | arbor-ios/Models/ChatParticipant.swift:25-29 | Reading a role from its raw value is exactly the inverse of the raw value, and nil for any other string. |
| Participants.RoleRawRoundTrip | arbor-ios/Models/ChatParticipant.swift:25-29 | Distinct roles have distinct raw values, and each raw value reads back as its role. |
| Participants.PermissionLadder | arbor-ios/Models/ChatParticipant.swift:40-59 | Owners and moderators may edit and invite, and only the owner may delete. Deleting implies editing and inviting. |
| Participants.HashOnlyId | arbor-ios/Models/ChatParticipant.swift:15-18 | Participants with one id hash alike. |
| SharedLinks.ShareUrl | arbor-ios/Models/SharedLink.swift:25-29 | The share URL is the base share URL, a slash, then the access token. |
| SharedLinks.ShareUrlInjective | arbor-ios/Models/SharedLink.swift:25-29 | Two links share a URL exactly when they share an access token. |
| SharedLinks.ExpiryIsPermanent | arbor-ios/Models/SharedLink.swift:32-42 | Once expired a link stays expired, and once invalid it stays invalid. |
| SharedLinks.CreateNew | arbor-ios/Models/SharedLink.swift:45-64 | A new link is active, records the message count, and has equal creation and update times. It has an expiry exactly when `expiresIn` is given, and then the expiry is creation plus `expiresIn`. |
| SharedLinks.NewLinkValidity | arbor-ios/Models/SharedLink.swift:32-64 | A new link without an expiry is valid at every time. One that expires in `e` seconds is valid exactly up to `e` seconds after its creation. |
| SharedLinks.HashOnlyId | arbor-ios/Models/SharedLink.swift:15-18 | Links with one id hash alike. |
| Theme.ScanHex | webs-ios/Theme/Theme.swift:75 | The scanned value is below 16 to the power of the text's length. |
| Theme.FromHex | webs-ios/Theme/Theme.swift:72-86 | Every channel lies in 0..255. A cleaned text of any length other than 3, 6 or 8 gives opaque black. Only the 8-digit case can give an alpha other than 255. |
| Theme.LeadingSymbolIgnored | webs-ios/Theme/Theme.swift:73 | A leading `#`, or any other non-alphanumeric character, does not change the colour. |
| Theme.ThreeDigits | webs-ios/Theme/Theme.swift:78-79 | Three digits give each digit times 17 as red, green and blue, fully opaque. |
| Theme.SixDigits | webs-ios/Theme/Theme.swift:80-81 | Six digits give the red, green and blue bytes in order, fully opaque. |
| Theme.EightDigits | webs-ios/Theme/Theme.swift:82-83 | Eight digits give red, green, blue and then alpha, so the text is RRGGBBAA. |
| Theme.ScanAllDigits | webs-ios/Theme/Theme.swift:75 | A text made only of hex digits is read in full. |
| Theme.Resolve | webs-ios/Theme/Theme.swift:107-109 | Resolving a colour in any scheme gives the colour itself. |
| ToolViews.ReplaceUnderscores | webs-ios/Views/Chat/Views/ChatContent/Views/Message/Views/SharedToolUtilityViews.swift:173 | Every underscore becomes a space and every other character stays in place. |
| ToolViews.SplitCamel | webs-ios/Views/Chat/Views/ChatContent/Views/Message/Views/SharedToolUtilityViews.swift:174 | The result is one character longer per lower-to-upper boundary. It adds only spaces, keeps the first character, and leaves a text without boundaries alone. |
| ToolViews.BoundariesIgnoreUnderscores | webs-ios/Views/Chat/Views/ChatContent/Views/Message/Views/SharedToolUtilityViews.swift:173-174 | Replacing underscores does not change where spaces are inserted. |
| ToolViews.Capitalized | webs-ios/Views/Chat/Views/ChatContent/Views/Message/Views/SharedToolUtilityViews.swift:178 | Only the first character is upper-cased and the rest is kept. |
| ToolViews.FormatKey | webs-ios/Views/Chat/Views/ChatContent/Views/Message/Views/SharedToolUtilityViews.swift:171-179 | The result gains one space per boundary, is empty exactly for an empty key, and has no underscores. Its first character is not lower case and no later character is upper case. |
| ToolViews.FormatKeyIdempotent | webs-ios/Views/Chat/Views/ChatContent/Views/Message/Views/SharedToolUtilityViews.swift:171-179 | Formatting an already formatted key changes nothing. |
| ToolViews.Unescape | webs-ios/Views/Chat/Views/ChatContent/Views/Message/Views/SharedToolUtilityViews.swift:119-121 | The result is never longer and is empty exactly for empty input. It holds no backslash-`n` pair, and text without one comes back unchanged. |
| ToolViews.UnescapeEscape | webs-ios/Views/Chat/Views/ChatContent/Views/Message/Views/SharedToolUtilityViews.swift:119-121 | Unescaping gives back any text that was escaped, provided the text held no literal backslash-`n` of its own. |
| ToolViews.UnescapeIdempotent | webs-ios/Views/Chat/Views/ChatContent/Views/Message/Views/SharedToolUtilityViews.swift:119-121 | Unescaping twice is unescaping once. |
| ToolViews.Icon | arbor-ios/Views/Chat/Views/ChatContent/Views/Message/Views/ToolResultDetailsView.swift:79-89 | The header icon is the code icon exactly for JSON and the link icon exactly for URLs. It is the multi-line icon exactly for other multi-line values. |
| ToolViews.Renderer | arbor-ios/Views/Chat/Views/ChatContent/Views/Message/Views/ToolResultDetailsView.swift:116-124 | The JSON renderer is used exactly for JSON and the URL renderer exactly for URLs. Everything else is formatted text. |
| ToolViews.UrlIsNeverJson | arbor-ios/Views/Chat/Views/ChatContent/Views/Message/Views/ToolResultDetailsView.swift:55-67 | A URL never looks like JSON, so the JSON-before-URL priority never hides a link. |
| ToolViews.IconMatchesRenderer | arbor-ios/Views/Chat/Views/ChatContent/Views/Message/Views/ToolCallDetailsView.swift:77-122 | The icon and the renderer always agree: code with JSON, link with URL, multi-line or plain with text. |
| ToolViews.SortedKeys | arbor-ios/Views/Chat/Views/ChatContent/Views/Message/Views/ToolResultDetailsView.swift:35 | Every key appears once, in strictly ascending order. |
| ToolViews.SectionsOfOrdered | arbor-ios/Views/Chat/Views/ChatContent/Views/Message/Views/ToolResultDetailsView.swift:34-40 | Each section shows an entry of the map, and the sections come in strictly ascending key order. |
| ToolViews.SectionsOfCovers | arbor-ios/Views/Chat/Views/ChatContent/Views/Message/Views/ToolCallDetailsView.swift:33-38 | Every entry of the map has a section. |
| ToolViews.ResultDetails | arbor-ios/Views/Chat/Views/ChatContent/Views/Message/Views/ToolResultDetailsView.swift:20-43 | The title is the unescaped content. An empty result shows only `No result data available`; otherwise the result's sections are shown. |
| ToolViews.CallDetails | arbor-ios/Views/Chat/Views/ChatContent/Views/Message/Views/ToolCallDetailsView.swift:20-41 | The title is `Tool: ` and the tool name. Empty arguments show only `No arguments provided`; otherwise the arguments' sections are shown. |
| ToolViews.NonEmptyMapHasSections | arbor-ios/Views/Chat/Views/ChatContent/Views/Message/Views/ToolCallDetailsView.swift:33-41 | A sheet with entries shows at least one section. |
| SearchFilters.Filter | arbor-ios/Views/Chat/Views/CommandBar/Views/AttachmentSheet/RulesSelection/RulesSelectionView.swift:20-21 | The filtered list holds exactly the listed elements that satisfy the condition, each as many times as it occurs in the list. It is never longer than the list, and is the whole list when every element qualifies. |
| SearchFilters.FilterIsSubsequence | arbor-ios/Views/Chat/Views/CommandBar/Views/AttachmentSheet/RulesSelection/RulesSelectionView.swift:20-21 | Filtering keeps the original order: the result is a subsequence of the list. |
| SearchFilters.InitialRules | arbor-ios/Views/Chat/Views/CommandBar/Views/AttachmentSheet/RulesSelection/RulesSelectionView.swift:8-13 | The sheet starts with four rules, each with its fresh id and none selected. |
| SearchFilters.FilteredRules | arbor-ios/Views/Chat/Views/CommandBar/Views/AttachmentSheet/RulesSelection/RulesSelectionView.swift:16-23 | An empty search shows all rules. Otherwise exactly the rules whose name or description contains the search, ignoring case, are shown. |
| SearchFilters.FilteredRulesSubsequence | arbor-ios/Views/Chat/Views/CommandBar/Views/AttachmentSheet/RulesSelection/RulesSelectionView.swift:16-23 | The rules shown are an order-preserving subsequence of all rules. |
| SearchFilters.FilterSelectedCount | arbor-ios/Views/Chat/Views/CommandBar/Views/AttachmentSheet/RulesSelection/RulesSelectionView.swift:25-27 | Filtering on `isSelected` keeps exactly as many rules as are selected, counted one rule at a time. |
| SearchFilters.CountSelectedZero | arbor-ios/Views/Chat/Views/CommandBar/Views/AttachmentSheet/RulesSelection/RulesSelectionView.swift:25-27 | The number of selected rules never exceeds the number of rules, and is zero exactly when no rule is selected. |
| SearchFilters.SelectedRulesCount | arbor-ios/Views/Chat/Views/CommandBar/Views/AttachmentSheet/RulesSelection/RulesSelectionView.swift:25-27 | The count is the number of rules with `isSelected` set, counted one rule at a time. It never exceeds the number of rules, and is zero exactly when no rule is selected. |
| SearchFilters.InitialRulesUnselected | arbor-ios/Views/Chat/Views/CommandBar/Views/AttachmentSheet/RulesSelection/RulesSelectionView.swift:8-27 | The sheet opens with a selected count of zero. |
| SearchFilters.FilteredChats | webs-ios/Views/Sidebar/Views/RecentChatsList/RecentChatsListView.swift:68-76 | An empty filter shows all chats. Otherwise exactly the chats whose title contains the filter, ignoring case, are shown. |
| SearchFilters.FilteredChatsSubsequence | webs-ios/Views/Sidebar/Views/RecentChatsList/RecentChatsListView.swift:68-76 | The chats shown are an order-preserving subsequence of all chats. |
| SearchFilters.EmptyFilterKeepsAll | webs-ios/Views/Sidebar/Views/RecentChatsList/RecentChatsListView.swift:69-74 | The empty-filter short cut is needed: no title contains the empty text, so filtering on it would show no chat, while the short cut shows every chat. |
| SearchFilters.FilteredProjects | webs-ios/Views/Sidebar/Views/ProjectsList/ProjectsListView.swift:61-69 | An empty search shows all projects. Otherwise exactly the projects whose name contains the search, ignoring case, are shown; the description is not searched. |
| SearchFilters.FilteredProjectsSubsequence | webs-ios/Views/Sidebar/Views/ProjectsList/ProjectsListView.swift:61-69 | The projects shown are an order-preserving subsequence of all projects. |
| SearchFilters.ExtendingSearchNarrows | webs-ios/Views/Sidebar/Views/ProjectsList/ProjectsListView.swift:61-69 | Typing more characters never brings a project back. The list for a longer search is a subsequence of the list for any search it extends. |
| SearchFilters.NavigateToNewChat | webs-ios/Views/Sidebar/Views/RecentChatsList/RecentChatsListView.swift:60-65 | Starting a new chat from the sidebar leaves no chat selected and closes the sidebar. |
| SearchFilters.NavigateToNewChatIdempotent | arbor-ios/ViewModels/AppViewModel.swift:180-183 | Starting a new chat twice in a row is the same as once. |
| CommandBar.LineCount | webs-ios/Views/Chat/Views/CommandBar/CommandBarView.swift:139 | Every text has at least one line. |
| CommandBar.TextHeight | webs-ios/Views/Chat/Views/CommandBar/CommandBarView.swift:137-146 | The height lies between 40 and 120. It is 40 exactly for text without a line feed, and 120 exactly from four line feeds on. |
| CommandBar.HeightMonotone | webs-ios/Views/Chat/Views/CommandBar/CommandBarView.swift:139-145 | More lines never give a smaller editor. |
| CommandBar.TypingNeverShrinks | webs-ios/Views/Chat/Views/CommandBar/CommandBarView.swift:137-146 | Appending text never shrinks the editor. |
| CommandBar.TextChanged | webs-ios/Views/Chat/Views/CommandBar/CommandBarView.swift:137-146 | A text change stores the text and its height and nothing else. |
| CommandBar.SendEnabled | webs-ios/Views/Chat/Views/CommandBar/CommandBarView.swift:223 | Send is enabled exactly when the text holds a character that is not whitespace or a line feed. |
| CommandBar.UpdateMode | webs-ios/Views/Chat/Views/CommandBar/CommandBarView.swift:239-247 | Only the mode changes. It is spin exactly when spin is on, think exactly when only think is on, and main exactly when both are off. |
| CommandBar.UpdateUIFromMode | webs-ios/Views/Chat/Views/CommandBar/CommandBarView.swift:250-264 | Only the toggles change, and they are never both on. Spin is on exactly in the spin mode and think exactly in the think mode. |
| CommandBar.ModeRoundTrip | webs-ios/Views/Chat/Views/CommandBar/CommandBarView.swift:239-264 | Reading the toggles back after showing a mode gives the same mode and changes nothing. |
| CommandBar.TogglesRoundTrip | webs-ios/Views/Chat/Views/CommandBar/CommandBarView.swift:239-264 | Showing the mode that the toggles select gives the toggles back exactly when they were not both on. |
| CommandBar.ResetState | webs-ios/Views/Chat/Views/CommandBar/CommandBarView.swift:267-284 | After a reset the text is empty, the height is 40, the mode is main, both toggles are off, loading has stopped and the sheet is closed. |
| CommandBar.ResetIsConsistent | webs-ios/Views/Chat/Views/CommandBar/CommandBarView.swift:137-284 | After a reset the height is the one the empty text calls for, and the toggles agree with the mode. |
| SignIn.Digits | webs-ios/Views/Auth/SignInView.swift:100 | The filter keeps only digits, is never longer, and keeps an all-digit text whole. |
| SignIn.Sanitize | webs-ios/Views/Auth/SignInView.swift:98-106 | The code has at most six characters, all digits, and is a prefix of the typed digits. It is the first six when there are at least six, and all of them otherwise. |
| SignIn.SanitizeIdempotent | webs-ios/Views/Auth/SignInView.swift:98-106 | Sanitising a sanitised code leaves it alone, so the sanitiser settles after one round. |
| SignIn.SanitizeKeepsShortCodes | webs-ios/Views/Auth/SignInView.swift:101-105 | A code of at most six digits is kept as typed. |
| SignIn.FullCodeIgnoresTyping | webs-ios/Views/Auth/SignInView.swift:101-102 | Typing after six digits changes nothing. |
| SignIn.VerifyEnabled | webs-ios/Views/Auth/SignInView.swift:128-134 | Verify is enabled exactly for a code of six characters. |
| SignIn.DigitBox | webs-ios/Views/Auth/SignInView.swift:78-83 | Box `i` shows the code's `i`-th character exactly when the code is longer than `i`. |
| SignIn.BoxesShowSanitizedCode | webs-ios/Views/Auth/SignInView.swift:71-134 | The boxes show a sanitised code in full and leave the rest empty. All six are filled exactly when verify is enabled. |
| SignIn.ShowEmailView | webs-ios/Views/Auth/SignInView.swift:412-434 | The e-mail form opens at whatever step it was left, and nothing else changes. |
| SignIn.SignInWithEmail | webs-ios/Views/Auth/SignInView.swift:524-558 | A sent code opens the code step. An error leaves the state as it was. |
| SignIn.Back | webs-ios/Views/Auth/SignInView.swift:175-206 | At the code step, back first clears a typed code and then returns to e-mail entry. At e-mail entry it closes the flow and forgets the e-mail and the code. |
| SignIn.CoherenceKept | webs-ios/Views/Auth/SignInView.swift:175-206 | Opening the form, sending a code from the open form, and going back all keep the code step inside the open flow. |
| SignIn.BackRetreats | webs-ios/Views/Auth/SignInView.swift:175-206 | Every press of back moves one step closer to the closed, empty flow, and the e-mail survives until the last press. |
| SignIn.BackAtClosedIsIdle | webs-ios/Views/Auth/SignInView.swift:188-206 | Once the flow is closed and empty, back changes nothing. |

## Left out

- Transport. The model does not cover `URLSession`, reading the byte stream, assembling the stream URL (the invalid-URL error included), the connection probe or `getAgentInfo`. A reply is a status code, an optional body and a finite list of lines.
- Reading the 400 body can itself fail. Only the outcome is modelled: the outer catch reports it as a network error, and the cause is an opaque description.
- Concurrency: `AsyncThrowingStream`, `Task`, `onTermination`, `MainActor` hops, and saves that are started and not awaited. A save is an outbox entry appended when the save is started. Cancellation is cutting the line list short, and `Task.isCancelled` inside the view-model loops is not modelled.
- JSON text parsing and `String(describing:)` are function parameters. The model claims nothing about JSON escaping.
- Dates are integers, written and read as JSON numbers. The date-string format of the API decoder (ISO 8601 with two `DateFormatter` fallbacks) is not modelled.
- The response message is tracked by its index. The source looks it up by id, and fresh ids are distinct, so both find the same message.
- The `mode` argument of `streamChatResponse` is never sent, so it is not a parameter.
- The REST services (`ChatService`, `ProjectService`, `APIManager`) are represented only by their outcomes.
- App orchestration in `AppViewModel`, network monitoring, focus handling and `commandBarFocused` are not modelled. Only `navigateToNewChat` is.
- SwiftUI layout, animations, haptics, keyboard observers, toasts, dialogs and the sheets are not modelled.
- The spin and think buttons of the command bar are commented out in the source. Their toggles are still modelled through `updateMode`/`updateUIFromMode`.
- The model has no floating point. `CGFloat` heights are integers, timestamps are integers, and the `Double(x)/255` scaling in `Color(hex:)` is left out: channels are the integers 0..255.
- Unicode is approximated by ASCII. This covers `isNumber`, `lowercased`/`uppercased`, whitespace and newlines, `localizedCaseInsensitiveContains`, and `String` ordering (taken as the order of character codes).
- Theme.ScanHex: `UInt64` overflow in `scanHexInt64` is not modelled. At most eight digits are ever used, so it cannot matter.
- The synthesized `Codable` of `Chat`, `User`, `ChatParticipant` and `SharedLink` is not modelled: it has no custom logic.
- `SharedLink.shareUrl` yields a URL only when the text is a valid URL. URL validity is not modelled; the text is.
- Authentication (Clerk e-mail codes, Apple sign-in, settings, logout) is not modelled. The outcome of sending a code is a parameter of `SignIn.SignInWithEmail`.
- The webs-ios `AppViewModel` is not part of this model. Its sibling in arbor-ios supplies `navigateToNewChat`.
- The three copies of `formatKey` and the two copies of the value classifiers are written out identically in the source. Each is modelled once, by `ToolViews.FormatKey` and the `ToolViews` predicates.
- ChatViewModels.StreamResponse: its contract covers loading, settings and the error text. What it does to the messages is stated by the fold lemmas and by `ChatStreamProperties.ShortAnswerShownTwice` and `ChatStreamScenarios.ToolStreamRepeatsAnswer`.
- Users.Initials: its contract only bounds the length and fixes the `U` fallback. Which letters it picks is stated against the display name by `Users.InitialsFromDisplayName`.
- Theme.ScanHex: its contract only bounds the value. The full reading of an all-digit text is stated by `Theme.ScanAllDigits`, and scanning that stops at a non-digit has no separate lemma.
