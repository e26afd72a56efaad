# scwa-b2b chat domain in Dafny

A model of the chat core of the scwa-b2b multi-company support-chat application, with proofs about it.

- **Backend.** The model covers:
  - the per-company conversation queue: position assignment, dense renumbering, wait estimates and the active-queue listing;
  - the realtime gateway's registry of users, sockets, rooms and typing users, and its event handlers;
  - the message content rules: the initial payload, reply previews, auto-assignment, status timestamps, editing, reactions and transcript metrics;
  - attachment validation, naming, listing and soft deletion;
  - the transcript job: option filters, CSV and HTML escaping, export bookkeeping and the scheduled batch;
  - the retention job and the audit service and controller;
  - the user and company services with their pagination and CNPJ rules.
- **Frontend.** The state logic of the socket hook, the audio-recorder hook, the upload panel, the message box and the white-label theme helpers.

The database is an immutable `Store` of record sequences, kept in insertion order (`records.dfy`). Each service operation is a pure function from a store to a `Result` holding the new store and the reply. Errors are `Fault` values carrying the framework exception's kind and message.

Outside effects are parameters or outputs:

- the clock is a `now` parameter in milliseconds;
- generated ids, random suffixes and password hashes are functions or values passed in;
- store failures are explicit flags;
- socket emissions and callbacks are returned as lists of effects.

The frontend hooks are reducers: each takes the current state and one event and returns the next state and its effects. Where a React callback reads state it captured at an earlier render, the model records that captured value explicitly. In those cases both the hook as written and the evidently intended hook are modelled; see "Findings".

Modules, one per file:

| file | module | contents |
|---|---|---|
| `base.dfy` | `Base` | `Option`/`Result`/`Fault`, filters and string helpers |
| `sorting.dfy` | `Sorting` | stable sort by key |
| `tally.dfy` | `Tally` | counts in first-seen key order |
| `records.dfy` | `Records` | entities, enums and the store |
| `queue.dfy` | `Queue` | the conversation queue |
| `gateway.dfy` | `Gateway` | the realtime gateway |
| `messages.dfy` | `Messages` | the message service |
| `attachments.dfy` | `Attachments` | the attachment service |
| `csv.dfy` | `Csv` | comma-separated values: the writer and a reference reader |
| `transcripts.dfy` | `Transcripts` | the transcript job |
| `audit.dfy` | `Audit` | the audit service |
| `audit_api.dfy` | `AuditApi` | the audit controller |
| `retention.dfy` | `Retention` | the retention job |
| `paging.dfy` | `Paging` | list pagination |
| `users.dfy` | `Users` | the user service |
| `companies.dfy` | `Companies` | the company service and its DTOs |
| `whitelabel.dfy` | `WhiteLabel` | the theme helpers |
| `socket_client.dfy` | `SocketClient` | the socket hook |
| `audio_recorder.dfy` | `AudioRecorder` | the recorder hook |
| `upload_list.dfy` | `UploadList` | the upload panel |
| `message_input.dfy` | `MessageInput` | the message box |

## Model

| member | source | states |
|---|---|---|
| Records.ParseStatus | backend/src/modules/chats/dto/update-queue.dto_T3.001.ts:3-8 | a recognised status string names exactly the status it parses to |
| Records.StatusNamesRoundTrip | backend/src/modules/chats/dto/update-queue.dto_T3.001.ts:3-8 | every conversation status parses back from its own name |
| Records.ParseType | backend/src/modules/chats/dto/save-message.dto_T3.005.ts:9-17 | a recognised message-type string names exactly the type it parses to |
| Records.TypeNamesRoundTrip | backend/src/modules/chats/dto/save-message.dto_T3.005.ts:9-17 | every message type parses back from its own name |
| Records.ParseMessageStatus | backend/src/modules/chats/dto/save-message.dto_T3.005.ts:19-25 | a recognised message-status string names exactly the status it parses to |
| Records.MessageStatusNamesRoundTrip | backend/src/modules/chats/dto/save-message.dto_T3.005.ts:19-25 | every message status parses back from its own name |
| Queue.MaxPosition | backend/src/modules/chats/chats.service_T3.001.ts:145-158 | the highest position among the company's waiting or open conversations: absent exactly when none of them holds a position, otherwise held by one of them and at least every other position |
| Queue.NextPosition | backend/src/modules/chats/chats.service_T3.001.ts:145-159 | a new conversation's position is 1 when a waiting or open conversation of the company has no position, since that row sorts first in descending order; otherwise 1 on an empty queue and one past the highest position held, so it is above every position in use |
| Queue.PositionlessQueueRepeatsFirst | backend/src/modules/chats/chats.service_T3.001.ts:150-158 | with a positionless conversation in the queue, a new conversation gets position 1 even when another conversation already holds 1 |
| Queue.StartConversation | backend/src/modules/chats/chats.service_T3.001.ts:12-61 | appends exactly one waiting conversation with the next position, the client id only when given, no agent and no close time; the estimate is 5 minutes per position; an initial text message is stored only when non-empty; no other table changes |
| Queue.GetQueueStatus | backend/src/modules/chats/chats.service_T3.001.ts:63-89 | fails with "Conversation not found" exactly for an unknown id; otherwise reports the stored status and position, a wait estimate exactly for waiting conversations, the agent's name exactly when an assigned agent is on file, and as last message the newest of the conversation's messages, present exactly when it has any |
| Queue.WaitingOf | backend/src/modules/chats/chats.service_T3.001.ts:162-170 | selects exactly the company's waiting conversations |
| Queue.Reorganize | backend/src/modules/chats/chats.service_T3.001.ts:161-181 | only positions change: every other conversation and every other table stay as they were, and each waiting conversation of the company gets a position |
| Queue.QueueOrderFacts | backend/src/modules/chats/chats.service_T3.001.ts:162-170 | the renumbering order holds exactly the company's waiting conversations, sorted by start time, each once |
| Queue.RankInOrder | backend/src/modules/chats/chats.service_T3.001.ts:173-178 | each waiting conversation's new position is its 1-based rank in start-time order |
| Queue.ReorganizeInRange | backend/src/modules/chats/chats.service_T3.001.ts:173-178 | new positions lie between 1 and the number of waiting conversations |
| Queue.ReorganizeInjective | backend/src/modules/chats/chats.service_T3.001.ts:173-178 | two different waiting conversations never share a position after renumbering |
| Queue.ReorganizeSurjective | backend/src/modules/chats/chats.service_T3.001.ts:173-178 | every position from 1 to the queue length is held by some waiting conversation, so the queue has no gaps |
| Queue.ReorganizeRespectsStartOrder | backend/src/modules/chats/chats.service_T3.001.ts:167-178 | a conversation started earlier gets a strictly smaller position |
| Queue.ReorganizeIdempotent | backend/src/modules/chats/chats.service_T3.001.ts:161-181 | renumbering an already renumbered queue changes nothing |
| Queue.ApplyUpdate | backend/src/modules/chats/chats.service_T3.001.ts:95-105 | only the given fields change; closing stamps the close time and any other status keeps it; identity, company, start and client stay |
| Queue.UpdateQueuePosition | backend/src/modules/chats/chats.service_T3.001.ts:91-113 | fails exactly for an unknown conversation; otherwise writes the update and renumbers the company's queue exactly when the status becomes assigned with an agent |
| Queue.UpdateClosesAndRenumbers | backend/src/modules/chats/chats.service_T3.001.ts:101-110 | the returned record carries the close time exactly when the update closes it, and without an assignment nothing beyond the one record is renumbered |
| Queue.ActiveOrder | backend/src/modules/chats/chats.service_T3.001.ts:116-125 | holds each of the company's waiting and open conversations exactly as often as the store does and nothing else; numbered ones come first by ascending position, then those without a position, as PostgreSQL orders nulls last when ascending |
| Queue.ClientName | backend/src/modules/chats/chats.service_T3.001.ts:138 | a displayed client name is never empty and is the anonymous label when no client is linked |
| Queue.Entries | backend/src/modules/chats/chats.service_T3.001.ts:135-142 | one entry per conversation, in order, numbered from the given rank |
| Queue.GetActiveQueue | backend/src/modules/chats/chats.service_T3.001.ts:115-143 | one entry per waiting or open conversation of the company, numbered 1, 2, … in queue order, each with its status and a non-empty client name |
| Gateway.RoomName | backend/src/modules/chats/socket.gateway_T3.002.ts:121 | a conversation's room name is the "conversation:" prefix followed by the id |
| Gateway.RoomNameRoundTrip | backend/src/modules/chats/events_T3.002.ts:29-30 | the conversation id can be read back from its room name |
| Gateway.RoomNameInjective | backend/src/modules/chats/socket.gateway_T3.002.ts:121 | distinct conversations never share a room |
| Gateway.AddUserConnection | backend/src/modules/chats/socket.gateway_T3.002.ts:320-325 | afterwards the user is online with the socket among its connections and the socket maps back to the user; other users and the typing map are untouched |
| Gateway.RemoveUserConnection | backend/src/modules/chats/socket.gateway_T3.002.ts:327-336 | the socket is forgotten; the user stays online exactly when another socket of theirs remains, and the entry is dropped when the last one goes |
| Gateway.AddKeepsConsistent | backend/src/modules/chats/socket.gateway_T3.002.ts:320-325 | adding a new socket keeps the user-to-sockets and socket-to-user maps describing the same relation, with no empty set |
| Gateway.RemoveKeepsConsistent | backend/src/modules/chats/socket.gateway_T3.002.ts:327-336 | removing a socket under its own user keeps the two maps in agreement |
| Gateway.AddThenRemove | backend/src/modules/chats/socket.gateway_T3.002.ts:320-336 | connecting a fresh socket and disconnecting it restores the registry exactly |
| Gateway.HandleConnection | backend/src/modules/chats/socket.gateway_T3.002.ts:55-75 | without a token the socket gets an UNAUTHORIZED error and is disconnected; with a token and a user id the socket is registered under that user; with a token but no user id nothing changes |
| Gateway.HandleDisconnect | backend/src/modules/chats/socket.gateway_T3.002.ts:77-90 | an anonymous socket changes nothing; otherwise its connection is removed and, when it was in a conversation, its typing flag is cleared there |
| Gateway.StartTyping | backend/src/modules/chats/socket.gateway_T3.002.ts:269-283 | outside a conversation nothing happens; otherwise the user joins that conversation's typing set, other conversations keep theirs, and the rest of the room is told the user is typing |
| Gateway.StopTyping | backend/src/modules/chats/socket.gateway_T3.002.ts:285-306 | the explicit conversation wins over the socket's own; the user leaves that typing set, the entry disappears exactly when it becomes empty, and the room is told the user stopped |
| Gateway.StartTypingKeepsNoEmpty | backend/src/modules/chats/socket.gateway_T3.002.ts:274-276 | starting to type never leaves an empty typing set behind |
| Gateway.StopTypingKeepsNoEmpty | backend/src/modules/chats/socket.gateway_T3.002.ts:293-299 | stopping removes a conversation's entry rather than leaving it empty |
| Gateway.StartThenStopTyping | backend/src/modules/chats/socket.gateway_T3.002.ts:269-306 | starting and then stopping leaves the user out of the conversation's typing set |
| Gateway.RecentMessages | backend/src/modules/chats/socket.gateway_T3.002.ts:101-111 | at most 50 of the conversation's own messages, newest first, and no omitted message is newer than one returned |
| Gateway.JoinView | backend/src/modules/chats/socket.gateway_T3.002.ts:133-145 | a history entry keeps the message's id and text, is typed "text", and names "system" as sender when the message has none |
| Gateway.Participants | backend/src/modules/chats/socket.gateway_T3.002.ts:151-164 | one participant per linked client or agent, each marked online exactly when the registry has a connection for them |
| Gateway.HandleJoin | backend/src/modules/chats/socket.gateway_T3.002.ts:92-174 | an unknown conversation fails with "Conversation not found" and changes nothing; otherwise the socket joins the room, records the conversation, the others hear a user-joined notice with "User"/"client" defaults, and the answer carries the recent history in order and the participants |
| Gateway.HandleLeave | backend/src/modules/chats/socket.gateway_T3.002.ts:176-188 | the socket leaves exactly that room, forgets its current conversation, and the rest of the room hears user-left |
| Gateway.JoinThenLeave | backend/src/modules/chats/socket.gateway_T3.002.ts:92-188 | joining then leaving restores the socket's rooms and leaves it with no current conversation |
| Gateway.HandleSendMessage | backend/src/modules/chats/socket.gateway_T3.002.ts:190-257 | missing content or conversation fails with "Invalid message data" and changes nothing; a failed write changes nothing and answers with the store's own message; otherwise exactly one message is appended with the sender, role (default "client"), text and the given metadata, the whole room receives it with id, text, type, sender role and the given metadata unchanged, and the ack carries its id |
| Gateway.SendClearsTyping | backend/src/modules/chats/socket.gateway_T3.002.ts:242-243 | after a successful send the sender is no longer in that conversation's typing set |
| Gateway.HandleMarkAsRead | backend/src/modules/chats/socket.gateway_T3.002.ts:259-267 | the read notice goes to the rest of the socket's current room and nothing is stored |
| Gateway.HandleGetQueuePosition | backend/src/modules/chats/socket.gateway_T3.002.ts:308-317 | -1 outside a conversation; an unknown conversation fails as the queue lookup does; otherwise the stored position, or 0 when there is none |
| Gateway.NotifyConversationAssigned | backend/src/modules/chats/socket.gateway_T3.002.ts:343-354 | the assignment notice goes to the conversation's whole room with the agent's id and name |
| Gateway.NotifyQueueUpdate | backend/src/modules/chats/socket.gateway_T3.002.ts:356-362 | the queue update goes to the conversation's whole room with the position and wait estimate |
| Messages.ParseSenderType | backend/src/modules/chats/dto/save-message.dto_T3.005.ts:77-79 | a recognised sender-type string names exactly the sender type it parses to |
| Messages.SenderTypeNamesRoundTrip | backend/src/modules/chats/dto/save-message.dto_T3.005.ts:77-79 | "client", "agent" and "system" each parse back to their sender type |
| Messages.ValidateSaveMessage | backend/src/modules/chats/dto/save-message.dto_T3.005.ts:69-107 | a request is accepted exactly when the conversation id is a UUID, sender id and content are non-empty, the three enumerated fields hold allowed values and no mentions are given (the object check refuses the array mentions are); a rejection is a bad request; an accepted request keeps every field |
| Messages.ValidateSaveMessageRoundTrip | backend/src/modules/chats/dto/save-message.dto_T3.005.ts:69-107 | a well-formed request written out as strings validates back to itself exactly when it has no mentions |
| Messages.ReplyFor | backend/src/modules/chats/messages.service_T3.005.ts:54-67 | a reply reference exists exactly when a reply id is given and names a stored message; its preview is that message's first 100 characters |
| Messages.InitialContent | backend/src/modules/chats/messages.service_T3.005.ts:40-52 | a new document has the request's type, text and metadata, status "sent" unless given, empty reactions and mentions unless given, a sent timestamp, version 1, and is neither edited nor deleted |
| Messages.AttachmentsFor | backend/src/modules/chats/messages.service_T3.005.ts:77-82 | an attachment list exists exactly when the metadata names a file, and then lists that one file |
| Messages.AudioUrlFor | backend/src/modules/chats/messages.service_T3.005.ts:83 | only audio messages carry an audio URL, and it is the metadata's file name |
| Messages.SaveMessage | backend/src/modules/chats/messages.service_T3.005.ts:29-126 | an unknown conversation fails with "Conversation … not found"; a failed insert is rethrown; otherwise exactly one message is appended with the sender, text and initial document, one message-created event is emitted, and a waiting conversation answered by an agent becomes assigned to that agent while nothing else changes |
| Messages.SavedMessageComplete | backend/src/modules/chats/messages.service_T3.005.ts:40-105 | a saved document always has its type, text, status, timestamps and version, and the only conversation change is an assignment to the sending agent |
| Messages.StampStatus | backend/src/modules/chats/messages.service_T3.005.ts:144-153 | the status is set; delivered and read also stamp their own time and leave the others; a document without timestamps fails on delivered or read, as the source's property access does |
| Messages.UpdateMessageStatus | backend/src/modules/chats/messages.service_T3.005.ts:131-168 | an unknown message fails with "Message … not found"; otherwise only that message's document changes, as stamped, and one status-updated event is emitted |
| Messages.DeliveredThenRead | backend/src/modules/chats/messages.service_T3.005.ts:147-153 | delivering and then reading a complete document keeps its sent time and records both later times |
| Messages.NextVersion | backend/src/modules/chats/messages.service_T3.005.ts:197 | an edit increments a present non-zero version and otherwise yields 2 |
| Messages.EditContent | backend/src/modules/chats/messages.service_T3.005.ts:191-197 | an edit replaces the text, records who edited and when, bumps the version, and keeps every other field |
| Messages.EditMessage | backend/src/modules/chats/messages.service_T3.005.ts:173-214 | an unknown message fails as not found; an edit by anyone but the sender fails with "You can only edit your own messages"; otherwise only that message's text and document change and one edited event is emitted |
| Messages.EditsCountVersions | backend/src/modules/chats/messages.service_T3.005.ts:191-197 | two successive edits raise the version by two and keep the last text |
| Messages.AddReaction | backend/src/modules/chats/messages.service_T3.005.ts:232-244 | the user is listed under the emoji afterwards, appended only when not already there; other emojis are untouched |
| Messages.RemoveReaction | backend/src/modules/chats/messages.service_T3.005.ts:274-284 | the user is no longer listed under the emoji, the emoji disappears exactly when nobody else reacted with it, and other emojis are untouched |
| Messages.AddReactionKeepsWellFormed | backend/src/modules/chats/messages.service_T3.005.ts:241-244 | adding never lists a user twice under one emoji |
| Messages.RemoveReactionKeepsWellFormed | backend/src/modules/chats/messages.service_T3.005.ts:274-284 | removing never lists a user twice under one emoji |
| Messages.AddReactionIdempotent | backend/src/modules/chats/messages.service_T3.005.ts:241-244 | reacting twice with the same emoji is the same as reacting once |
| Messages.AddThenRemoveReaction | backend/src/modules/chats/messages.service_T3.005.ts:219-296 | adding a new reaction and removing it again restores the reactions |
| Messages.AddMessageReaction | backend/src/modules/chats/messages.service_T3.005.ts:219-256 | an unknown message fails as not found; otherwise only that message's reactions change, as added, and one reaction-added event is emitted |
| Messages.RemoveMessageReaction | backend/src/modules/chats/messages.service_T3.005.ts:261-296 | an unknown message fails as not found; a document without reactions stays as it is; otherwise only the reactions change, as removed, and one reaction-removed event is emitted |
| Messages.GetConversationMessagesAsWritten | backend/src/modules/chats/messages.service_T3.005.ts:301-345 | returns exactly the window at the page offset, at most one page long, of all the conversation's messages oldest first, with no deleted-message filter |
| Messages.AllInOrder | backend/src/modules/chats/messages.service_T3.005.ts:309-325 | exactly the conversation's messages, ordered by creation time |
| Messages.AsWrittenReturnsDeleted | backend/src/modules/chats/messages.service_T3.005.ts:313-318 | with default options a message marked deleted is still returned |
| Messages.GetConversationMessages | backend/src/modules/chats/messages.service_T3.005.ts:301-345 | returns exactly the window at the page offset, at most one page long (50 by default), of the conversation's messages oldest first, leaving out messages marked deleted unless asked to include them; a first page that fits holds all of them |
| Messages.ListedInOrder | backend/src/modules/chats/messages.service_T3.005.ts:309-325 | exactly the messages the corrected filter admits, each once, ordered by creation time |
| Messages.MetricsOf | backend/src/modules/chats/messages.service_T3.005.ts:414-437 | counts every message once by type and once by sender, and the duration is the elapsed whole seconds up to the close time or now; a resolution time exists exactly for closed conversations and equals the duration |
| Messages.MetricsCounts | backend/src/modules/chats/messages.service_T3.005.ts:429-437 | each per-type and per-sender count is the number of messages with that type (default "text") or sender (default "system") |
| Messages.TranscriptLine | backend/src/modules/chats/messages.service_T3.005.ts:397-412 | a transcript line keeps the message's id, time and text, with type "text" and sender "system" when absent |
| Messages.TranscriptOrder | backend/src/modules/chats/messages.service_T3.005.ts:357-358 | holds exactly the conversation's messages, oldest first |
| Messages.BasicTranscript | backend/src/modules/chats/messages.service_T3.005.ts:350-478 | an unknown conversation fails as not found; otherwise one line per message in transcript order, metrics over those messages, at most two participants, an evaluation exactly when one exists and queue information exactly when a non-zero position is stored |
| Messages.Participants | backend/src/modules/chats/messages.service_T3.005.ts:372-394 | the client and then the agent, each listed exactly when the user is found, with its role |
| Messages.EvaluationOf | backend/src/modules/chats/messages.service_T3.005.ts:457-465 | present exactly when the conversation has an evaluation, carrying the first one's rating and time |
| Messages.QueueInfoOf | backend/src/modules/chats/messages.service_T3.005.ts:468-475 | present exactly when a non-zero queue position is stored, which becomes the initial position; assigned exactly when there is an agent |
| Attachments.Extname | backend/src/modules/chats/attachments.service_T3.004.ts:62 | the extension is empty or a '.' followed by no further '.' or '/', and it is a suffix of the name |
| Attachments.ExtnameOfStem | backend/src/modules/chats/attachments.service_T3.004.ts:93-94 | a dot-free or slash-free stem followed by an extension has exactly that extension |
| Attachments.ValidateFile | backend/src/modules/chats/attachments.service_T3.004.ts:46-66 | a file is accepted exactly when it is at most 50 MB, its MIME type is on its type's whitelist (every type but "other" has one) and its lower-cased extension is not an executable kind; size is checked first, then MIME type, then extension, each with its own message |
| Attachments.UpperCaseExecutableRejected | backend/src/modules/chats/attachments.service_T3.004.ts:61-65 | "SETUP.EXE" is refused for security reasons even as "other", since the extension is lower-cased first |
| Attachments.ExecutableRejected | backend/src/modules/chats/attachments.service_T3.004.ts:61-65 | any name whose extension lower-cases to an executable kind is refused for security reasons, for every attachment type, once size and MIME type have passed |
| Attachments.StoredName | backend/src/modules/chats/attachments.service_T3.004.ts:91-94 | the stored name starts with the conversation id and '_' |
| Attachments.StoredNameKeepsExtension | backend/src/modules/chats/attachments.service_T3.004.ts:91-95 | the stored name keeps the original file's extension |
| Attachments.AttachmentContent | backend/src/modules/chats/attachments.service_T3.004.ts:108-119 | the stored document has type "attachment", status "sent", the file's details, its path and its URL, and is not deleted |
| Attachments.UploadAttachment | backend/src/modules/chats/attachments.service_T3.004.ts:71-150 | an unknown conversation fails first, then a file that fails validation, with nothing written; a failed insert removes the written file and fails with "Failed to upload attachment"; a known conversation, a valid file and a successful insert always succeed, and a success keeps the file, appends exactly one client message (description or "Uploaded <type>: <name>") and answers with its URL and a thumbnail URL exactly for images |
| Attachments.AttachmentMessages | backend/src/modules/chats/attachments.service_T3.004.ts:239-256 | exactly the conversation's attachment messages, of the given type when one is given, newest first |
| Attachments.Listing | backend/src/modules/chats/attachments.service_T3.004.ts:258-274 | a listed attachment keeps the message's id, details and time, with a thumbnail exactly for images |
| Attachments.ListAttachments | backend/src/modules/chats/attachments.service_T3.004.ts:235-275 | one listed attachment per matching message, in the same order |
| Attachments.UploadedIsListed | backend/src/modules/chats/attachments.service_T3.004.ts:71-275 | a successful upload is listed both under its own type and without a type filter |
| Attachments.DeleteAttachment | backend/src/modules/chats/attachments.service_T3.004.ts:280-309 | an unknown message fails with "Attachment not found"; anyone but the sender fails with "You can only delete your own attachments"; otherwise only that message changes: its text becomes "[Attachment deleted]" and its document is marked deleted with the time, keeping the other fields |
| Attachments.DeletedAttachmentHidden | backend/src/modules/chats/attachments.service_T3.004.ts:280-309 | with the fix of messages.service_T3.005.ts:313-318 (Findings), a deleted attachment no longer appears in the default read of conversation messages; the read as written still returns it |
| Transcripts.WithoutAttachments | backend/src/jobs/transcript_save.job_T3.005.ts:164-169 | a line without attachments differs from the original in nothing else |
| Transcripts.ApplyStepsMeansKept | backend/src/jobs/transcript_save.job_T3.005.ts:146-182 | running the source's filter steps in their order equals keeping exactly the lines the options admit and then shaping them |
| Transcripts.ResultLine | backend/src/jobs/transcript_save.job_T3.005.ts:146-182 | every output line is the shaped form of an input line the options admit |
| Transcripts.ApplyOptionsWith | backend/src/jobs/transcript_save.job_T3.005.ts:140-185 | without options the transcript is returned unchanged; with options only the messages and metrics change: the admitted lines, shaped, and the metrics only when asked for |
| Transcripts.ApplyTranscriptOptionsAsWritten | backend/src/jobs/transcript_save.job_T3.005.ts:155-161 | leaving deleted messages out removes only lines whose metadata carries a deleted entry |
| Transcripts.AsWrittenKeepsSoftDeleted | backend/src/jobs/transcript_save.job_T3.005.ts:155-161 | a soft-deleted attachment line survives a request that excludes deleted messages |
| Transcripts.ApplyTranscriptOptions | backend/src/jobs/transcript_save.job_T3.005.ts:140-185 | no options changes nothing; otherwise no more lines than before, no deleted line (by either mark), system line or attachment unless asked for, every line inside the date range, and metrics exactly when asked for and present |
| Transcripts.ApplyOptionsSubsequence | backend/src/jobs/transcript_save.job_T3.005.ts:146-182 | filtering only removes lines and keeps their order, and every admitted line appears in the output |
| Transcripts.DateRangeInclusive | backend/src/jobs/transcript_save.job_T3.005.ts:177-182 | with only a date range, a line is kept exactly when its time lies between start and end, both included |
| Csv.DoubleQuotes | backend/src/jobs/transcript_save.job_T3.005.ts:345 | doubling quotes adds one character per quote |
| Csv.DoubleQuotesRoundTrip | backend/src/jobs/transcript_save.job_T3.005.ts:345 | undoubling a doubled text gives the text back |
| Csv.QuoteField | backend/src/jobs/transcript_save.job_T3.005.ts:345 | the content field is wrapped in quotes and grows by one character per inner quote plus two |
| Csv.QuoteFieldRoundTrip | backend/src/jobs/transcript_save.job_T3.005.ts:345 | reading the content column back gives the content |
| Csv.ReadRecordOf | backend/src/jobs/transcript_save.job_T3.005.ts:340-347 | a written record of quoted cells and of plain bare cells reads back as the cells' texts, and says whether a line feed ends it |
| Csv.ParseOf | backend/src/jobs/transcript_save.job_T3.005.ts:334-352 | written records, each non-empty with every cell quoted or plain, read back as their texts, record by record |
| Transcripts.CsvRow | backend/src/jobs/transcript_save.job_T3.005.ts:340-347 | a row starts with the conversation id and ends with the quoted content; it reads back as exactly the five fields id, time, sender name, type and content whenever id, time and type are plain and, with the name written bare as the job does, the name is plain too; with the fix (the name quoted) any name reads back |
| Transcripts.AsWrittenCommaInNameSplitsRow | backend/src/jobs/transcript_save.job_T3.005.ts:343 | as written (the name bare), a sender name holding a comma reads back as two fields, giving a row of six with type and content shifted; the fixed row (the name quoted) reads back as its five fields |
| Transcripts.AsWrittenExportSplitsCommaName | backend/src/jobs/transcript_save.job_T3.005.ts:334-352 | as written, the exported file of one transcript whose one message comes from "first,last" reads back as the header and a record of six fields |
| Transcripts.Lines | backend/src/jobs/transcript_save.job_T3.005.ts:338-349 | one line per message of every transcript |
| Transcripts.LinesOfOne | backend/src/jobs/transcript_save.job_T3.005.ts:339-348 | a single transcript contributes its messages in order, each paired with its conversation id |
| Transcripts.LinesAppend | backend/src/jobs/transcript_save.job_T3.005.ts:338-349 | rows of consecutive transcripts follow one another |
| Transcripts.CsvRows | backend/src/jobs/transcript_save.job_T3.005.ts:334-352 | a header row, then exactly one row per message, transcript by transcript and in message order, the name written bare as the job does or quoted with the fix |
| Transcripts.TranscriptsToCsv | backend/src/jobs/transcript_save.job_T3.005.ts:334-352 | the file starts with the header line, whichever way the name column is written |
| Transcripts.CsvRecordsWriteRows | backend/src/jobs/transcript_save.job_T3.005.ts:336-349 | the header cells and one row of cells per message, written, are exactly the export's rows |
| Transcripts.TranscriptsToCsvRoundTrip | backend/src/jobs/transcript_save.job_T3.005.ts:334-352 | the export reads back as the header and then each message's five fields, transcript by transcript and in message order, whenever every id, time and type is plain: as written (the name bare) only when every sender name is plain too, and with the fix (the name quoted) whatever the names hold |
| Transcripts.EscapeChar | backend/src/jobs/transcript_save.job_T3.005.ts:414-421 | an ordinary character is kept; a special one becomes an entity starting with '&' and holding no other special character |
| Transcripts.EscapeHtml | backend/src/jobs/transcript_save.job_T3.005.ts:413-422 | no raw '<', '>', quote or apostrophe survives, text without specials is unchanged, and the result is never shorter |
| Transcripts.UnescapeChar | backend/src/jobs/transcript_save.job_T3.005.ts:414-421 | each escaped character reads back as itself |
| Transcripts.EscapeHtmlRoundTrip | backend/src/jobs/transcript_save.job_T3.005.ts:413-422 | decoding the entities of an escaped text gives the text back, so escaping is one pass and loses nothing |
| Transcripts.UpdateExportStatus | backend/src/jobs/transcript_save.job_T3.005.ts:427-445 | an unknown export changes nothing; otherwise only that export changes: its status, its error when one is given, and with a file name its download link, completion time and an expiry 7 days later |
| Transcripts.UpdateExportStatusIdempotent | backend/src/jobs/transcript_save.job_T3.005.ts:427-445 | repeating the same status update changes nothing more |
| Transcripts.CleanupOldExports | backend/src/jobs/transcript_save.job_T3.005.ts:461-468 | exactly the exports requested more than 24 hours before now are forgotten, and the rest are kept as they were |
| Transcripts.CleanupLater | backend/src/jobs/transcript_save.job_T3.005.ts:457-468 | cleaning up and cleaning up again later equals the later cleanup alone |
| Transcripts.CleanupCommutesWithUpdate | backend/src/jobs/transcript_save.job_T3.005.ts:427-468 | a status update and a cleanup can run in either order with the same result |
| Transcripts.CreateBatchExport | backend/src/jobs/transcript_save.job_T3.005.ts:246-272 | the new export is pending, lists the requested conversations, defaults to the json format, has no link or error yet, and no other export changes |
| Transcripts.TranscriptFor | backend/src/jobs/transcript_save.job_T3.005.ts:289-291 | a conversation's transcript exists exactly when the conversation does and belongs to it; its lines are the basic transcript's lines the options keep under the given deletion test, shaped, and only lines and metrics change |
| Transcripts.KnownIdsFilter | backend/src/jobs/transcript_save.job_T3.005.ts:287-295 | the conversations a batch can export are exactly the known requested ids, in request order |
| Transcripts.Successes | backend/src/jobs/transcript_save.job_T3.005.ts:287-295 | one transcript per id whose generation succeeded, in order |
| Transcripts.BatchCoversKnownIds | backend/src/jobs/transcript_save.job_T3.005.ts:287-295 | under either deletion test a failing conversation is skipped and the batch holds one transcript per known id, in request order |
| Transcripts.ExportFileFor | backend/src/jobs/transcript_save.job_T3.005.ts:318-326 | json, csv and html produce a file and any other format none; a csv file is the transcripts' CSV text, written with the name column as given (bare as the job does) |
| Transcripts.ProcessBatchExport | backend/src/jobs/transcript_save.job_T3.005.ts:277-302 | an unknown export fails with "Export … not found"; otherwise it is completed with its download link and a 7-day expiry, its file holds the transcripts that could be generated under the given deletion test, in CSV with the given name column (bare as the job does), and no other export changes |
| Transcripts.RunBatchExport | backend/src/jobs/transcript_save.job_T3.005.ts:246-302 | the new export ends completed, or failed with the write error and no link when writing fails; without a write error the file is the one the export's format makes from the generated transcripts, in CSV with the given name column (bare as the job does); no other export changes |
| Transcripts.SaveTranscriptReference | backend/src/jobs/transcript_save.job_T3.005.ts:204-228 | only conversation metadata changes: the same conversations stay in the same order |
| Transcripts.SaveTranscriptReferenceFind | backend/src/jobs/transcript_save.job_T3.005.ts:204-228 | the conversation then has a transcript entry and every other conversation is unchanged |
| Transcripts.SaveTranscriptReferenceKeeps | backend/src/jobs/transcript_save.job_T3.005.ts:204-241 | saving a reference never removes another conversation's transcript entry |
| Transcripts.VisitScheduled | backend/src/jobs/transcript_save.job_T3.005.ts:73-90 | a conversation that already has a transcript is skipped untouched, a failing one is counted as an error untouched, and any other ends up with a transcript; no other conversation gains or loses a transcript, and none changes id |
| Transcripts.VisitNext | backend/src/jobs/transcript_save.job_T3.005.ts:72-91 | one turn of the loop keeps what the run has established and extends it to one more visited conversation |
| Transcripts.VisitAll | backend/src/jobs/transcript_save.job_T3.005.ts:69-91 | visiting the due conversations in turn counts exactly the saves and the failures, when ids are distinct; every visited conversation that does not fail has a transcript, and none is lost |
| Transcripts.CountFirstIsFilter | backend/src/jobs/transcript_save.job_T3.005.ts:69-91 | counting the visited conversations one by one gives the size of the filter of the visited prefix |
| Transcripts.GenerateScheduledTranscripts | backend/src/jobs/transcript_save.job_T3.005.ts:46-110 | processes every conversation closed within the last 2 hours; with distinct conversation ids, as primary keys are, the successes are exactly the due conversations without a transcript whose file can be written and the errors exactly those whose file cannot; every due conversation that does not fail has a transcript afterwards, and no transcript entry is lost |
| Audit.CreateLog | backend/src/modules/audit/audit.service_T1.005.ts:16-37 | a failed insert is rethrown unchanged; otherwise exactly one log carrying every requested field is appended and nothing else changes |
| Audit.EventActionsDistinct | backend/src/modules/audit/audit.service_T1.005.ts:41-178 | different kinds of event, user creation included, are never recorded under the same action |
| Audit.EventRequest | backend/src/modules/audit/audit.service_T1.005.ts:41-178 | each event is logged under its actor; only data export and data deletion are LGPD actions; a user creation targets the user and carries the user data and every extra entry; a deletion targets the user and records its reason, "USER_REQUEST" by default; only logins carry address and browser |
| Audit.LogEvent | backend/src/modules/audit/audit.service_T1.005.ts:42-178 | a failed insert changes nothing; otherwise exactly one log with the event's actor and action is appended |
| Audit.BuildWhere | backend/src/modules/audit/audit.service_T1.005.ts:193-204 | the query has no condition exactly when no criterion is given |
| Audit.WhereMeansSelected | backend/src/modules/audit/audit.service_T1.005.ts:193-204 | a log meets the built conditions exactly when it matches every given criterion, date bounds included at both ends |
| Audit.AllSelected | backend/src/modules/audit/audit.service_T1.005.ts:193-210 | exactly the logs matching the criteria, newest first |
| Audit.FindLogs | backend/src/modules/audit/audit.service_T1.005.ts:183-228 | exactly the window at the offset, at most the limit long (100 when absent or zero), of all matching logs newest first; from offset 0, when all matches fit, all of them are returned |
| Audit.CountLogsByAction | backend/src/modules/audit/audit.service_T1.005.ts:253-260 | the number of logs with that action, restricted to the company when one is given |
| Audit.RankedActors | backend/src/modules/audit/audit.service_T1.005.ts:319-327 | one entry per actor that has logs, each with its number of logs, ordered by count descending |
| Audit.TopActors | backend/src/modules/audit/audit.service_T1.005.ts:319-328 | at most 10 distinct actors by count descending, each with its log count and name, and any actor left out has no more logs than every listed one |
| Audit.Summarize | backend/src/modules/audit/audit.service_T1.005.ts:300-333 | the total is the number of logs, the per-action counts are exact and add up to it, and the listed logs are the first ones, at most 1000 |
| Audit.GenerateAuditReportAsWritten | backend/src/modules/audit/audit.service_T1.005.ts:293-298 | the report never counts more than 100 logs, since it reads through the paged listing |
| Audit.AsWrittenReportUndercounts | backend/src/modules/audit/audit.service_T1.005.ts:293-301 | with 101 matching logs the report says 100 |
| Audit.GenerateAuditReport | backend/src/modules/audit/audit.service_T1.005.ts:293-334 | with the fix, the report summarises every log of the company in the period: the total is their number, the per-action counts add up to it, and at most 1000 of them are listed; for a period with at most 100 logs it is the report as written |
| Audit.FullPageIsAll | backend/src/modules/audit/audit.service_T1.005.ts:206-211 | with no offset and no more matching logs than the limit, the listing returns every matching log |
| Audit.CleanupOldLogs | backend/src/modules/audit/audit.service_T1.005.ts:266-288 | keeps exactly the logs newer than the retention cutoff (90 days by default) plus every data-export and data-deletion log, in their order |
| Audit.CleanupOldLogsIdempotent | backend/src/modules/audit/audit.service_T1.005.ts:266-288 | a second cleanup at the same time removes nothing more |
| AuditApi.FillDraft | backend/src/modules/audit/audit.controller_T1.005.ts:31-44 | with the fix, address, browser, actor and company are taken from the request only when the body leaves each out, the actor being the caller's `userId`, and nothing else in the body changes |
| AuditApi.FillDraftKeepsGiven | backend/src/modules/audit/audit.controller_T1.005.ts:33-44 | a body that gives all four fields is passed on unchanged |
| AuditApi.FillDraftIdempotent | backend/src/modules/audit/audit.controller_T1.005.ts:33-44 | filling twice is the same as filling once |
| AuditApi.PostLog | backend/src/modules/audit/audit.controller_T1.005.ts:19-47 | a caller who is not an agent, manager or admin is refused first; otherwise the log is stored unless the insert fails, with the filled-in address, browser and company, and the caller as actor when the body names none |
| AuditApi.FillDraftAsWritten | backend/src/modules/audit/audit.controller_T1.005.ts:40 | as written, an actor filled in from the caller is missing, since the request's user has no `id`; everything else is filled as with the fix |
| AuditApi.PostLogAsWritten | backend/src/modules/audit/audit.controller_T1.005.ts:28-47 | as written, an admitted log whose body names no actor is refused by the store; one that names its actor is stored as with the fix |
| AuditApi.AsWrittenPostLogLosesCaller | backend/src/modules/audit/audit.controller_T1.005.ts:40 | as written an agent's log without an actor in its body fails; with the fix it is stored with the agent as actor |
| AuditApi.ScopedCompany | backend/src/modules/audit/audit.controller_T1.005.ts:66-69 | a manager with a company always queries that company; anyone else queries the company they ask for |
| AuditApi.QueryFilters | backend/src/modules/audit/audit.controller_T1.005.ts:66-80 | the listing's criteria carry the scoped company and the given actor, action and target, with limit 100 and offset 0 by default |
| AuditApi.GetLogs | backend/src/modules/audit/audit.controller_T1.005.ts:53-91 | a caller who is not a manager or admin is refused first; then an unparsable start date, then an unparsable end date, and, for limits and offsets that are natural numbers, nothing else is rejected; the answer is exactly the listing of the scoped criteria, so a scoped manager only ever sees their company's logs, at most 100 by default |
| AuditApi.GetReport | backend/src/modules/audit/audit.controller_T1.005.ts:96-121 | a caller who is not a manager or admin is refused first; then a manager asking about a company other than theirs, or having none, then a missing company, start or end, then an unparsable date; every listed log belongs to the requested company, and the answer is the fixed report of that company over the parsed period |
| AuditApi.GetActionCount | backend/src/modules/audit/audit.controller_T1.005.ts:126-148 | a caller who is not a manager or admin is refused, then a missing action, and nothing else; the answer echoes the action and the scoped company and counts exactly the matching logs |
| AuditApi.PostEvent | backend/src/modules/audit/audit.controller_T1.005.ts:153-235 | sign-in and sign-out admit anyone signed in, the exports agents, managers and admins, and the data events admins only, others being refused first; then an export without a conversation id and a data event without a target user are rejected with their messages; otherwise, unless the insert fails, exactly one log with the caller's `userId` as actor and the event's action is appended, an LGPD action exactly for data export and deletion |
| AuditApi.PostEventAsWritten | backend/src/modules/audit/audit.controller_T1.005.ts:153-235 | as written no event is ever recorded: an admitted, complete event is refused by the store for want of an actor |
| AuditApi.AsWrittenLogoutNotRecorded | backend/src/modules/audit/audit.controller_T1.005.ts:166-170 | as written a sign-out is never recorded; with the fix it is |
| AuditApi.DataDeleteDefaultReason | backend/src/modules/audit/audit.service_T1.005.ts:167-178 | a data deletion without a reason is recorded with reason "USER_REQUEST" |
| Retention.ParseEntity | backend/src/jobs/retention.job_T1.005.ts:130-149 | a recognised entity name names exactly the entity it parses to |
| Retention.EntityNamesRoundTrip | backend/src/jobs/retention.job_T1.005.ts:130-149 | every entity parses back from its own name |
| Retention.PolicyFor | backend/src/jobs/retention.job_T1.005.ts:314 | the first policy for the entity, absent exactly when no policy names it |
| Retention.InitializeRetentionPolicies | backend/src/jobs/retention.job_T1.005.ts:29-71 | five policies, six exactly when automatic LGPD deletion is switched on by the string "true", one per entity, each naming only columns its table has; a users policy exists exactly with that switch |
| Retention.PolicyConditions | backend/src/jobs/retention.job_T1.005.ts:31-70 | conversations and tickets are restricted to closed ones, audit logs exclude data-export and data-deletion logs, messages and evaluations have no condition, and the users policy looks at last activity of non-deleted clients with 1095 days by default |
| Retention.DefaultRetentionDays | backend/src/jobs/retention.job_T1.005.ts:31-60 | with no settings the periods are 365, 730, 90, 180 and 365 days and there is no users policy |
| Retention.Cutoff | backend/src/jobs/retention.job_T1.005.ts:115-116 | the cutoff lies the retention period in whole 24-hour days before now |
| Retention.WhereFor | backend/src/jobs/retention.job_T1.005.ts:118-126 | the filter names the policy's date column (createdAt by default), the cutoff, and the policy's own condition |
| Retention.Purge | backend/src/jobs/retention.job_T1.005.ts:226-245 | a bulk delete keeps exactly the rows that do not match, in order, and counts the rows it removed |
| Retention.DeleteConversations | backend/src/jobs/retention.job_T1.005.ts:187-221 | with nothing matching nothing changes and the count is 0; otherwise exactly the matching conversations go, and with them exactly their messages, evaluations and tickets, while companies, users and audit logs stay |
| Retention.DeleteConversationsKeepsReferences | backend/src/jobs/retention.job_T1.005.ts:200-218 | after the deletion no message, evaluation or ticket refers to a missing conversation |
| Retention.AnonymousEmailInjective | backend/src/jobs/retention.job_T1.005.ts:265 | different users receive different anonymous addresses |
| Retention.Anonymized | backend/src/jobs/retention.job_T1.005.ts:262-271 | an anonymised user keeps id, role and company, is marked deleted now and has the anonymous address |
| Retention.AnonymizedForgetsPersonalData | backend/src/jobs/retention.job_T1.005.ts:262-271 | two users who differ only in personal data are indistinguishable once anonymised |
| Retention.AnonymizedIdempotent | backend/src/jobs/retention.job_T1.005.ts:262-271 | anonymising twice is the same as anonymising once |
| Retention.AnonymizedNotDue | backend/src/jobs/retention.job_T1.005.ts:63-70 | an anonymised user is never picked by the users policy again |
| Retention.AnonymizeOne | backend/src/jobs/retention.job_T1.005.ts:259-287 | a failed update leaves the users as they were; a user counts exactly when both the update and its data-deletion log by SYSTEM go through, and earlier logs are kept |
| Retention.AnonymizeUsers | backend/src/jobs/retention.job_T1.005.ts:250-291 | every candidate whose update goes through is anonymised and nobody else changes; the count is the number of candidates whose update and log both go through, one data-deletion log by SYSTEM each; one failure does not stop the rest |
| Retention.ApplyRetentionPolicy | backend/src/jobs/retention.job_T1.005.ts:114-161 | the result reports the entity, period and cutoff; for messages, evaluations, tickets and audit logs, exactly the rows not due are kept, in order, and the count is the number of due rows; a ticket policy with a condition keeps open tickets and an audit-log policy with one keeps every data-export and data-deletion log; the kept rows are exactly the original ones filtered by "not due"; the conversations policy is the conversation deletion with its count; the users policy anonymises exactly the due users whose update succeeds and counts them |
| Retention.AuditPolicyMatchesCleanup | backend/src/jobs/retention.job_T1.005.ts:226-229 | the audit-logs retention policy deletes exactly what the audit service's own cleanup deletes |
| Retention.ExecuteRetentionPolicies | backend/src/jobs/retention.job_T1.005.ts:77-109 | at most one result per policy, in order, and exactly one per policy when none fails; a failing policy contributes no result and the others still run |
| Retention.ExecuteReportsRunning | backend/src/jobs/retention.job_T1.005.ts:77-109 | the results report exactly the well-formed policies that do not fail, in order, each with its entity, period and cutoff |
| Retention.ExecuteSkipsFailing | backend/src/jobs/retention.job_T1.005.ts:82-92 | a run leaves the store and the results as a run of only the well-formed, non-failing policies would |
| Retention.UsersPolicySkipsKnownRoles | backend/src/jobs/retention.job_T1.005.ts:64-69 | the users policy selects only role "client", so no user, agent or manager is ever anonymised by it |
| Retention.ExecuteOne | backend/src/jobs/retention.job_T1.005.ts:77-96 | executing a single policy that goes through is applying it and reporting its one result |
| Retention.ManualCleanup | backend/src/jobs/retention.job_T1.005.ts:310-324 | an entity without a policy fails with "No retention policy found for entity: …"; a known entity succeeds exactly when its policy goes through, and then its result is that of executing that one policy, the policy applied with its single result; no entity runs every policy |
| Retention.ActedByCount | backend/src/jobs/retention.job_T1.005.ts:413-415 | a user's audit entries counted by filtering are the occurrences of their id among the entries' actors |
| Retention.CheckLgpdCompliance | backend/src/jobs/retention.job_T1.005.ts:370-419 | the audit count is the number of entries the user performed; a missing user is reported absent with no advice; otherwise its deletion flag, deletion time and counts are reported, the anonymisation advice appears exactly for a non-deleted user with conversations and the retention advice exactly for more than 100 messages |
| Paging.PageMeta | backend/src/modules/users/users.service_T1.004.ts:97-105 | the page number is the one whose range of positions holds the skip, and the page count is the least number of pages that holds all the rows; both are absent for a page size of 0, where the division has no value |
| Paging.PageOf | backend/src/modules/users/users.service_T1.004.ts:74-75 | a page holds up to the page size of rows, starting at the skipped position, in the order of the listing |
| Paging.ItemOnItsPage | backend/src/modules/companies/companies.service_T1.004.ts:63-71 | every row appears on the page its position falls in, that page is numbered accordingly, and it is within the page count |
| Paging.LastPageNotEmpty | backend/src/modules/companies/companies.service_T1.004.ts:69 | for a non-empty listing the last counted page holds at least one row |
| Users.PublicForgetsOnlyTheHash | backend/src/modules/users/users.service_T1.004.ts:168-170 | two users give the same reply exactly when they differ at most in their password hash, so the reply never reveals it |
| Users.Create | backend/src/modules/users/users.service_T1.004.ts:20-57 | with the fix (a body of the declared fields only), a taken email is a conflict, checked before the company; an unknown company is a bad request; otherwise exactly one user is added after the others, with the hashed password, the role given or "user", and the reply leaves out the hash |
| Users.InsertedAsWritten | backend/src/modules/users/users.service_T1.004.ts:43-52 | as written, the inserted row takes the id, deletion flag and creation time the body names, or the defaults, and always the freshly computed hash |
| Users.CreateAsWritten | backend/src/modules/users/users.service_T1.004.ts:20-57 | as written, the same conflict and company checks come first; an id the body names that is already taken fails; otherwise exactly the row built from the whole body is added after the others, and the reply leaves out the hash |
| Users.CreateAsWrittenAgreesOnDeclared | backend/src/modules/users/users.service_T1.004.ts:43-52 | a body holding only declared fields is registered as the fixed registration does |
| Users.AsWrittenCreateTakesGivenColumns | backend/src/modules/users/users.controller_T1.004.ts:26-29 | as written, a body naming `isDeleted` and a `createdAt` stores a deleted user with that date; the fixed registration stores a live user created now |
| Users.CreateKeepsEmailsUnique | backend/src/modules/users/users.service_T1.004.ts:21-28 | registration never produces two users with the same email |
| Users.CreateThenFindByEmail | backend/src/modules/users/users.service_T1.004.ts:157-171 | a registered user is then found by email with the same reply |
| Users.Selected | backend/src/modules/users/users.service_T1.004.ts:76-77 | the listing holds exactly the users the filter admits, newest first |
| Users.FindAll | backend/src/modules/users/users.service_T1.004.ts:64-106 | the page holds the filtered users at the requested positions, 0 and 10 when skip and take are missing, and the total counts every filtered user |
| Users.FindByCompany | backend/src/modules/users/users.service_T1.004.ts:113-117 | the first page of 10 users, all of that company, with the company's head count as total |
| Users.FindOne | backend/src/modules/users/users.service_T1.004.ts:124-150 | not found exactly when no user has the id; otherwise the summary of a user with that id |
| Users.FindByEmail | backend/src/modules/users/users.service_T1.004.ts:157-171 | not found exactly when no user has the email; otherwise that user without the hash |
| Users.Revised | backend/src/modules/users/dto/update-user.dto_T1.004.ts:5-12 | with the fix, an update changes only the fields the DTO declares, never email, company or creation time, and stores a new password only as its hash |
| Users.Update | backend/src/modules/users/users.service_T1.004.ts:179-210 | with the fix, a missing id is not found; otherwise only the user with that id changes, and the reply is that user revised, without the hash |
| Users.UpdatePasswordOnlyHashed | backend/src/modules/users/users.service_T1.004.ts:192-196 | with the fix, without a new password every hash stays; with one the user's hash becomes the hash of it |
| Users.RevisedAsWritten | backend/src/modules/users/users.service_T1.004.ts:189-196 | as written, every column the body names is written, email, company and hash included, and a new password's hash overrides a hash given in the body |
| Users.UpdateAsWritten | backend/src/modules/users/users.service_T1.004.ts:179-210 | as written, a missing id is not found; otherwise only the user with that id changes, by every column its body names |
| Users.UpdateAsWrittenAgreesOnDeclared | backend/src/modules/users/users.service_T1.004.ts:189-196 | a body holding only declared fields is updated as the fixed update does |
| Users.AsWrittenUpdateRewritesCredentials | backend/src/modules/users/users.controller_T1.004.ts:97-101 | as written, a body naming email, company or hash rewrites them, the hash stored as given, while the fixed update keeps all three |
| Users.Remove | backend/src/modules/users/users.service_T1.004.ts:218-238 | a missing id is not found; otherwise exactly the users with that id go, the others keep their order, and the message names the removed user's email |
| Users.RemoveTakesOne | backend/src/modules/users/users.service_T1.004.ts:230-232 | with unique ids a removal takes exactly one user |
| Users.RoleCounts | backend/src/modules/users/users.service_T1.004.ts:250-264 | one positive count per role, the roles distinct, adding up to the company's head count |
| Users.RoleCountsCount | backend/src/modules/users/users.service_T1.004.ts:250-264 | the count under a role is the number of the company's users with that role, 0 for a role nobody has |
| Users.StatsByCompany | backend/src/modules/users/users.service_T1.004.ts:245-266 | the total is the company's head count and equals the sum of the counts by role, and each role's count is the number of the company's users with that role |
| Companies.FormatCnpj | backend/src/modules/companies/dto/create-company.dto_T1.004.ts:11-13 | fourteen digits set into the pattern give a well-formed CNPJ that carries each digit at its place |
| Companies.CnpjDigits | backend/src/modules/companies/dto/create-company.dto_T1.004.ts:11-13 | a well-formed CNPJ has fourteen digits, read from their places |
| Companies.CnpjDigitsOfFormat | backend/src/modules/companies/dto/create-company.dto_T1.004.ts:11-13 | reading the digits back from a formatted CNPJ gives the digits |
| Companies.FormatOfCnpjDigits | backend/src/modules/companies/dto/create-company.dto_T1.004.ts:11-13 | every well-formed CNPJ is the format of its own digits |
| Companies.CreateViolations | backend/src/modules/companies/dto/create-company.dto_T1.004.ts:3-20 | a field is reported exactly when it breaks its rule (non-empty and at most 255 characters, the CNPJ pattern), and a body passes exactly when none is reported |
| Companies.UpdateViolations | backend/src/modules/companies/dto/update-company.dto_T1.004.ts:4-6 | only fields that are given are checked, and the CNPJ is not part of an update |
| Companies.Create | backend/src/modules/companies/companies.service_T1.004.ts:16-30 | with the fix (a body of the declared fields only), a CNPJ already on file is a conflict; otherwise exactly the new company is added after the others |
| Companies.CreateAsWritten | backend/src/modules/companies/companies.service_T1.004.ts:16-30 | as written, a CNPJ already on file is a conflict and an id the body names that is already taken fails; otherwise the company added takes the id and creation time the body names, or the defaults, and the declared fields |
| Companies.CreateAsWrittenAgreesOnDeclared | backend/src/modules/companies/companies.service_T1.004.ts:27-29 | a body holding only declared fields is registered as the fixed registration does |
| Companies.AsWrittenCreateTakesGivenDate | backend/src/modules/companies/companies.controller_T1.004.ts:25-27 | as written, a body naming a `createdAt` stores the company with that date; the fixed registration dates it now |
| Companies.CreateKeepsCnpjsUnique | backend/src/modules/companies/companies.service_T1.004.ts:17-24 | registration never produces two companies with the same CNPJ |
| Companies.CreateThenFindByCnpj | backend/src/modules/companies/companies.service_T1.004.ts:104-122 | a registered company is then found by its CNPJ |
| Companies.View | backend/src/modules/companies/companies.service_T1.004.ts:51-58 | the counts are the company's users and conversations, and 0 exactly when it has none |
| Companies.Selected | backend/src/modules/companies/companies.service_T1.004.ts:49-50 | the listing holds exactly the companies the filter admits, newest first |
| Companies.FindAll | backend/src/modules/companies/companies.service_T1.004.ts:37-72 | the page holds the filtered companies at the requested positions with their counts, 0 and 10 when skip and take are missing, and the total counts every filtered company |
| Companies.FindOne | backend/src/modules/companies/companies.service_T1.004.ts:79-97 | not found exactly when no company has the id; otherwise a company with that id and its counts |
| Companies.FindByCnpj | backend/src/modules/companies/companies.service_T1.004.ts:104-122 | not found exactly when no company has the CNPJ; otherwise a company with that CNPJ and its counts |
| Companies.Revised | backend/src/modules/companies/dto/update-company.dto_T1.004.ts:4-6 | with the fix, an update changes only the name and contact email given, never the id, CNPJ or creation time |
| Companies.Update | backend/src/modules/companies/companies.service_T1.004.ts:130-153 | with the fix, a missing id is not found; otherwise only the company with that id changes, by its declared fields, and the reply has its counts |
| Companies.UpdateKeepsCnpjs | backend/src/modules/companies/companies.service_T1.004.ts:141-143 | with the fix, an update keeps every CNPJ, so the same CNPJs are found afterwards |
| Companies.RevisedAsWritten | backend/src/modules/companies/companies.service_T1.004.ts:141-143 | as written, a CNPJ in the body is written too, unvalidated; the other fields change as with the fix |
| Companies.UpdateAsWritten | backend/src/modules/companies/companies.service_T1.004.ts:130-153 | as written, a missing id is not found; otherwise only the company with that id changes, CNPJ included when the body names one |
| Companies.UpdateAsWrittenAgreesOnDeclared | backend/src/modules/companies/companies.service_T1.004.ts:141-143 | a body without a CNPJ is updated as the fixed update does |
| Companies.AsWrittenUpdateRewritesCnpj | backend/src/modules/companies/companies.controller_T1.004.ts:92-96 | as written, a body naming a CNPJ no company holds, valid or not, makes the company findable by it; with the fix the lookup still fails |
| Companies.Remove | backend/src/modules/companies/companies.service_T1.004.ts:161-201 | a missing id is not found; a company with users cannot go, then one with conversations cannot, with their counts in the message; otherwise exactly that company goes and nothing else changes |
| Companies.RemoveKeepsReferences | backend/src/modules/companies/companies.service_T1.004.ts:179-190 | after a removal every user and conversation still belongs to an existing company |
| Companies.RemoveTakesOne | backend/src/modules/companies/companies.service_T1.004.ts:193-195 | with unique ids a removal takes exactly one company |
| Companies.InactiveMeansClosed | backend/src/modules/companies/companies.service_T1.004.ts:228-233 | a conversation that is not open, waiting or assigned is closed |
| Companies.GetStats | backend/src/modules/companies/companies.service_T1.004.ts:208-269 | an unknown company is not found; otherwise the reply carries the company's name and CNPJ, the users by role list each role once with exactly the number of the company's users holding it, the head count equals their sum, the active conversations are the open, waiting and assigned ones, the rest are closed, and the messages are those of its conversations |
| WhiteLabel.Kebab | frontend/src/styles/whitelabel_T2.003.ts:135 | the property name has no uppercase letter, is at least as long as the key, and is the key itself when the key has no uppercase letter |
| WhiteLabel.CssVarName | frontend/src/styles/whitelabel_T2.003.ts:135 | a colour's property is "--" followed by its key in kebab case |
| WhiteLabel.CamelOfKebab | frontend/src/styles/whitelabel_T2.003.ts:135 | a key without dashes comes back from its kebab-case name |
| WhiteLabel.CssVarNameInjective | frontend/src/styles/whitelabel_T2.003.ts:133-137 | two different dash-free colour keys never set the same property |
| WhiteLabel.FontProperties | frontend/src/styles/whitelabel_T2.003.ts:145-150 | a font property is set exactly when that font is given and non-empty, and with that font's value |
| WhiteLabel.ApplyTheme | frontend/src/styles/whitelabel_T2.003.ts:128-154 | without a document nothing is set or stored; otherwise every colour, then every radius as "--radius-" and its key, then the given fonts, and the theme is stored under "whitelabel-theme" |
| WhiteLabel.LoadSavedTheme | frontend/src/styles/whitelabel_T2.003.ts:157-169 | nothing without a window or a non-empty stored value, and otherwise what the stored value parses to, nothing when it does not parse |
| WhiteLabel.ApplyThenLoad | frontend/src/styles/whitelabel_T2.003.ts:153-163 | a theme applied in the browser is the one loaded afterwards, when its serialisation parses back to it |
| SocketClient.UpsertIsMapSet | frontend/src/hooks/useSocket_T3.003.ts:140-147 | the typing list changes as the map does when that user's entry is set |
| SocketClient.UnsetIsMapRemove | frontend/src/hooks/useSocket_T3.003.ts:178-183 | the typing list changes as the map does when that user's entry is deleted |
| SocketClient.UpsertKeepsUnique | frontend/src/hooks/useSocket_T3.003.ts:141-147 | setting an entry never lists a user twice and adds nothing but that entry |
| SocketClient.UnsetKeepsUnique | frontend/src/hooks/useSocket_T3.003.ts:148-150 | deleting an entry never lists a user twice |
| SocketClient.EnteredNotice | frontend/src/hooks/useSocket_T3.003.ts:121-136 | the notice is a system text message in the open conversation saying that the named person joined |
| SocketClient.MapMatching | frontend/src/hooks/useSocket_T3.003.ts:99-113 | only the messages with the given id change, and none is added or dropped |
| SocketClient.Step | frontend/src/hooks/useSocket_T3.003.ts:54-184 | a connection joins the open conversation's room, a successful join replaces the messages with the history, new messages go last and reach the callback, receipts flag only the matching messages, a queue update is kept and reported to the callback until an assignment clears it and posts a notice, changing nothing else and calling nothing, a connection error is reported, and typing and leaving set or delete the user's entry, named "Usuário" when no name is given |
| SocketClient.StepKeepsTypistsUnique | frontend/src/hooks/useSocket_T3.003.ts:50 | no event ever lists a typing user twice |
| SocketClient.ReceiptsIdempotent | frontend/src/hooks/useSocket_T3.003.ts:99-113 | a repeated delivery or read receipt changes nothing more |
| SocketClient.Run | frontend/src/hooks/useSocket_T3.003.ts:54-55 | without a conversation the hook stays in its initial state whatever arrives, and no sequence of events lists a typing user twice |
| SocketClient.SendMessage | frontend/src/hooks/useSocket_T3.003.ts:195-212 | nothing is sent without a socket or a conversation; otherwise the content goes to the open conversation, as text unless another type is given |
| AudioRecorder.MaxDurationOf | frontend/src/hooks/useAudioRecorder_T3.004.ts:26 | the recording limit is 300 seconds unless another is given |
| AudioRecorder.Rendered | frontend/src/hooks/useAudioRecorder_T3.004.ts:46-56 | a render refreshes only the timer callback's view of the pause flag, and changes nothing when that view is current |
| AudioRecorder.ElapsedSeconds | frontend/src/hooks/useAudioRecorder_T3.004.ts:48 | the whole seconds elapsed since the start, rounded down |
| AudioRecorder.Step | frontend/src/hooks/useAudioRecorder_T3.004.ts:46-246 | with the fixes: a start clears the error and the old recording and records unpaused from 0 with the timer running, or leaves the error and no recording when the microphone is refused; stop, pause and resume act only in the states their guards name and otherwise change nothing; a running tick shows the whole seconds since the start and stops the recorder exactly at the limit; the stop handler ends recording with the URL and reports the duration on screen; cancel resets everything and detaches the handler; clear drops only the recording and its time; a recorder error leaves an error and no recording |
| AudioRecorder.StepAsWritten | frontend/src/hooks/useAudioRecorder_T3.004.ts:46-157 | the hook as written agrees with the fixed one on every click; its tick stops the recorder only when the captured state it read showed a recording, and its completion reports the duration captured at start |
| AudioRecorder.StepKeepsCoherent | frontend/src/hooks/useAudioRecorder_T3.004.ts:75-233 | pausing needs a recording, a timer runs only while recording unpaused, and recording needs a recorder and a start time, in both versions, across every event |
| AudioRecorder.PauseThenResume | frontend/src/hooks/useAudioRecorder_T3.004.ts:191-206 | pausing and resuming keeps recording with a timer, the time shown, and tells the recorder to resume |
| AudioRecorder.TickStopsAtMax | frontend/src/hooks/useAudioRecorder_T3.004.ts:53-55 | with the fix a tick at the limit stops the recorder and clears the timer |
| AudioRecorder.AsWrittenNeverAutoStops | frontend/src/hooks/useAudioRecorder_T3.004.ts:46-64 | as written a tick at the limit stops nothing and the timer keeps running |
| AudioRecorder.ResumedTimeAdvances | frontend/src/hooks/useAudioRecorder_T3.004.ts:200-206 | with the fix the time shown after a resume advances |
| AudioRecorder.AsWrittenResumeFreezesTime | frontend/src/hooks/useAudioRecorder_T3.004.ts:46-49 | as written the timer restarted by a resume still sees the pause and the time shown stays at 0 |
| AudioRecorder.CompletionReportsDuration | frontend/src/hooks/useAudioRecorder_T3.004.ts:119-146 | with the fix the completion reports the duration shown when the recorder stopped |
| AudioRecorder.AsWrittenReportsStartDuration | frontend/src/hooks/useAudioRecorder_T3.004.ts:119-146 | as written the completion reports 0, the duration captured when recording started |
| AudioRecorder.PadTwo | frontend/src/hooks/useAudioRecorder_T3.004.ts:252 | two digits for numbers below 100 that read back as the number |
| AudioRecorder.FormatTime | frontend/src/hooks/useAudioRecorder_T3.004.ts:249-253 | minutes, a colon and two digits of seconds below 60, reading back as the number of seconds, five characters below 100 minutes |
| UploadList.FileType | frontend/src/components/UploadAttachment_T3.004.tsx:67-73 | images, audio and video by their MIME prefix, in that order of precedence; otherwise a document exactly when the type mentions pdf, document or text, and other files otherwise |
| UploadList.Dropped | frontend/src/components/UploadAttachment_T3.004.tsx:197-209 | dropped files go after the ones already listed, in order, pending, with a preview exactly for images |
| UploadList.PreviewMeansImage | frontend/src/components/UploadAttachment_T3.004.tsx:201-203 | a dropped file has a preview exactly when it is an image |
| UploadList.Remove | frontend/src/components/UploadAttachment_T3.004.tsx:184-194 | a position outside the list is a type error; otherwise exactly that file leaves the list, its preview is revoked when it has one, and the others keep their order |
| UploadList.RemoveThenInsert | frontend/src/components/UploadAttachment_T3.004.tsx:191 | putting the removed file back at its position gives the list as it was |
| UploadList.PendingRequests | frontend/src/components/UploadAttachment_T3.004.tsx:173-178 | with the fix, one request per file not yet uploaded, in list order, each for that file's position |
| UploadList.PendingRequestsComplete | frontend/src/components/UploadAttachment_T3.004.tsx:173-178 | with the fix, every file not yet uploaded gets a request |
| UploadList.UploadAll | frontend/src/components/UploadAttachment_T3.004.tsx:169-181 | with the fix, every file not yet uploaded is marked uploading at 0 percent and requested, and uploaded files are left as they are |
| UploadList.NothingToRetry | frontend/src/components/UploadAttachment_T3.004.tsx:175 | a list whose files are all uploaded sends no request |
| UploadList.UploadFromAsWritten | frontend/src/components/UploadAttachment_T3.004.tsx:169-181 | as written, files are started and sent in order up to the first one to send that a status update has rebuilt; that one throws a type error, the run stops there and the panel stays uploading; with no such file the run is the fixed one |
| UploadList.AsWrittenAgreesOnFreshFiles | frontend/src/components/UploadAttachment_T3.004.tsx:169-181 | as written, the run succeeds exactly when every file it must send is still as dropped, and then it sends and marks exactly what the fixed run does; the run leaves out the render, which as written already throws once a non-image file has started |
| UploadList.AsWrittenRetryThrows | frontend/src/components/UploadAttachment_T3.004.tsx:94-103 | as written, after an image's upload fails on the network and another file is dropped, "Upload All" is shown and the list renders, but pressing it throws on the image, sends nothing and leaves the panel uploading; with the fix both files are sent |
| UploadList.AsWrittenStartedFileBreaksRender | frontend/src/components/UploadAttachment_T3.004.tsx:285-298 | as written, a freshly dropped list renders, and starting a file's upload keeps it renderable exactly when it is an image with a preview: any other file, a PDF say, makes the next render throw in `getFileType` |
| UploadList.UpdateAt | frontend/src/components/UploadAttachment_T3.004.tsx:101-103 | with the fix, only the entry at the position changes and it keeps its file |
| UploadList.OnRequestEvent | frontend/src/components/UploadAttachment_T3.004.tsx:109-148 | with the fix, only the uploading file changes; a load succeeds exactly for status 200 or 201 and is reported, any other status marks the file failed and reports the status, a network error marks it failed with "Failed to upload" and its name, and progress never changes a status |
| UploadList.OnRequestEventAsWritten | frontend/src/components/UploadAttachment_T3.004.tsx:119-134 | as written a load with a status other than 200 or 201 changes nothing and reports nothing; every other event is handled as with the fix |
| UploadList.FinalEventSettles | frontend/src/components/UploadAttachment_T3.004.tsx:119-148 | with the fix a load or a network error leaves the file succeeded or failed |
| UploadList.AsWrittenRefusedLoadStaysUploading | frontend/src/components/UploadAttachment_T3.004.tsx:131-133 | as written a file whose upload is refused with status 500 stays uploading and no one is told |
| MessageInput.Strip | frontend/src/components/chat/MessageInput_T3.003.tsx:30 | nothing is left exactly when every character is white space; what is left neither starts nor ends with it and is the text between the leading and the trailing white space |
| MessageInput.Trim | frontend/src/components/chat/MessageInput_T3.003.tsx:30 | the text without white space at either end, empty exactly when it is all white space |
| MessageInput.TrimPadded | frontend/src/components/chat/MessageInput_T3.003.tsx:30 | white space around a text is removed and the text kept |
| MessageInput.TrimIdempotent | frontend/src/components/chat/MessageInput_T3.003.tsx:30 | trimming twice is trimming once |
| MessageInput.SendDisabled | frontend/src/components/chat/MessageInput_T3.003.tsx:153 | the send button is off exactly when the input is disabled or holds only white space |
| MessageInput.Send | frontend/src/components/chat/MessageInput_T3.003.tsx:29-47 | white space alone sends nothing; otherwise the trimmed, non-empty text is sent, the box is emptied and the indicator lowered exactly when it was raised |
| MessageInput.Change | frontend/src/components/chat/MessageInput_T3.003.tsx:56-85 | the box shows the value; a non-empty value raises the indicator, announcing it only when it was down, and arms a timeout that captures the indicator as it was; an empty one lowers it, announcing that only when it was up |
| MessageInput.Timeout | frontend/src/components/chat/MessageInput_T3.003.tsx:72-77 | with the fix the timeout lowers the indicator, announcing that exactly when it was up, and keeps the text |
| MessageInput.TimeoutAsWritten | frontend/src/components/chat/MessageInput_T3.003.tsx:72-77 | as written the timeout acts on the indicator as it was when it was armed, so one armed by the first keystroke does nothing |
| MessageInput.Step | frontend/src/components/chat/MessageInput_T3.003.tsx:49-54 | while disabled nothing but a timeout has an effect; when enabled, Enter without Shift and an enabled send button send the box, a change is handled as a change, and a timeout fires only when one is armed |
| MessageInput.StepAsWritten | frontend/src/components/chat/MessageInput_T3.003.tsx:56-85 | the input as written agrees with the fixed one on every event but the timeout |
| MessageInput.StepBalanced | frontend/src/components/chat/MessageInput_T3.003.tsx:56-85 | in both versions every event announces exactly the change of the indicator |
| MessageInput.IndicatorBalanced | frontend/src/components/chat/MessageInput_T3.003.tsx:29-85 | in both versions, after any events, the start and stop announcements balance to the indicator's state |
| MessageInput.PauseLowersIndicator | frontend/src/components/chat/MessageInput_T3.003.tsx:72-77 | with the fix one keystroke and a pause raise and then lower the indicator |
| MessageInput.AsWrittenFirstKeystrokeStaysTyping | frontend/src/components/chat/MessageInput_T3.003.tsx:72-77 | as written after one keystroke and a pause the indicator stays raised with no timeout left to lower it |

## Left out

- Persistence, the filesystem, sockets, timers, the DOM and local storage are not modelled as such. The store is a value, and files, emissions and browser calls are effects or parameters.
- The clock, generated ids, random file-name suffixes and bcrypt hashes are parameters; JWT decoding is not part of this model.
- Concurrency is not modelled: every operation runs alone on the store. This covers the read-then-create race in position assignment, the racing first-agent auto-assignment and the interleaving of socket events.
- `uploadAudioRecording`, `getAttachment` and `generateThumbnail` in the attachment service are not modelled. They only read files, write files and resize images.
- `ensureUploadDir`, `ensureTranscriptDir`, `saveTranscriptToFile`, `saveBatchExport`'s file writing and `saveJobMetrics` are not modelled: they are filesystem I/O. The export's file name is a parameter.
- `convertTranscriptsToHTML`'s page layout is left out. Only its escaping (`escapeHtml`) is modelled.
- `getExportStatus` is not modelled: it is a plain map lookup.
- `generateAndSaveTranscript` is modelled only through the transcript generator, which the batch and scheduled runs take as a parameter.
- `getLogsByActionAndPeriod` in the audit service is not modelled: it is a date-bounded `findMany` with no decision of its own.
- `getRetentionStats` in the retention job is not modelled: it only counts rows.
- The retention job's summary audit entry after a run is not modelled: its action is not one of the audit action values the model defines.
- `deleteAttachments` in the retention job is not modelled: it is an empty stub.
- Retention.ExecuteRetentionPolicies: a policy whose queries fail is modelled as changing nothing. The store's partial effects before the failure are not modelled.
- Queue.ActiveOrder: conversations sharing a position keep their store order. The database leaves the order of ties open.
- Queue.NextPosition: a conversation without a position sorts as larger than every position, as PostgreSQL orders NULLs by default, so the descending read of the last position finds it first and yields position 1. The model follows that default; a database configured otherwise is not modelled.
- The role guard's own code is not part of this model. Each audit route is taken to refuse, with "Forbidden resource", a caller whose role its `@Roles` list leaves out, and to admit anyone signed in when there is no list. The token guard in front of it is assumed passed.
- AuditApi.PostLog: a log still without an actor is taken to be refused by the store, as an insert without its actor column. The audit log table's schema is not part of this model.
- Retention.DeleteConversations: a conversation's age is read from its `startedAt`. That is the only creation time the source reads for a conversation: the retention statistics order conversations by it. The conversation policy's filter names `createdAt`, and whether a conversation row has such a column is not known here, since the schema is not part of this model.
- Transcripts.GenerateScheduledTranscripts: the exact success and error counts are promised for a store whose conversation ids are distinct, as primary keys are. With a repeated id, a later visit would see the transcript an earlier visit saved.
- Users.Update: takes a body that passed validation, so a new password has at least 8 characters, as the update DTO demands.
- Users.UpdateAsWritten: only the undeclared columns email, company and hash are modelled. Other columns a body may name, such as `isDeleted` or `createdAt`, and the database's unique constraints on email and CNPJ are not part of this model. A global validation pipe configured elsewhere is not part of this model either.
- Users.CreateAsWritten: the undeclared columns modelled are the id, the deletion flag and time, the last-activity time and the creation time. Relation fields a body might name are not modelled.
- Companies.CreateAsWritten: the undeclared columns modelled are the id and the creation time. Relation fields a body might name are not modelled.
- Retention.Cutoff: the cutoff is `now` less the period in 24-hour days. The job steps back whole local calendar days (`setDate(getDate() - days)`), which differs by the clock shift when the period spans a daylight-saving change. Time zones are not part of this model.
- AuditApi.QueryFilters: the `number` parameter yields a natural number or nothing. `parseInt` also accepts a sign, so a limit or offset such as "-5" reaches the query as a negative `take` or `skip`; those values, and what the database does with them, are not modelled.
- AuditApi.GetLogs: answers only for limits and offsets that are natural numbers, for the reason given for AuditApi.QueryFilters.
- Users.FindAll: takes natural `skip` and `take`. The controller computes `skip = (page - 1) * limit` from `parseInt` values, so page 0, a negative page or limit, or a non-numeric one (NaN) reach the query as negative or non-numeric values; those, and the negative or NaN `page` and `totalPages` they give, are not modelled.
- Companies.FindAll: takes natural `skip` and `take`, for the reason given for Users.FindAll.
- UploadList.UploadFromAsWritten: the run is modelled apart from the render. As written the render already throws once a non-image file has started uploading (UploadList.AsWrittenStartedFileBreaksRender), and the model does not carry that crash into later events.
- Csv.Parse: the reader splits records on a line feed only and reads an empty text as one empty field; carriage returns are ordinary characters.
- Validation by class-validator is modelled only where a service relies on it. That covers the CNPJ pattern, the field lengths of a company, the password length, and the save-message request's `IsUUID`, `IsNotEmpty`, `IsIn` and `IsObject` checks. `IsEmail` and the other decorators are not modelled.
- Strings are sequences of Unicode scalar values. Lengths counted in UTF-16 code units by the source, as in the 100-character reply preview, agree only outside the astral planes. Case conversion (`toLowerCase`, the kebab-case property names) covers ASCII letters only.
- JSON parsing and serialisation of stored content and of saved themes are parameters, or structured values.
- The `orderBy` parameter of the user and company listings is not modelled: the default newest-first order is. Nested `include`/`select` payloads are reduced to the fields the replies use.
- Foreign-key errors raised by the database are not modelled. Deletions that the source guards by counting first are guarded the same way.
- Floating-point values are not modelled: upload progress percentages and `formatFileSize`.
- `AudioRecorder.FormatTime` takes a whole, non-negative number of seconds. The recorder reports completion as an effect whether or not a callback was given. The MIME type choice of the media recorder, the recorder's data chunks and blob, and cleanup on unmount are left out.
- The recorder's elapsed time counts from the start of recording, paused time included, as the source computes it. The model follows that.
- The upload panel's dropzone filtering by size and accepted types happens in the dropzone library and is left out. `maxSize` only feeds that library.
- The upload panel addresses entries by the index captured when the upload started. A removal during an upload then updates the wrong entry in the source; the model keeps the index semantics and does not track that case further.
- Toast notifications, console logging, focus handling and the message box's file, emoji and voice buttons, which are stubs, are left out.
- `SocketClient.Run` starts from the initial state for each conversation id. Reconnection across a change of conversation id or token is not modelled.

## Findings

| source | as written | input that shows it | evidently intended | confidence | as-written member | corrected member |
|---|---|---|---|---|---|---|
| frontend/src/components/UploadAttachment_T3.004.tsx:131-133 | a load with a status other than 200 or 201 throws inside the event listener, after the surrounding `try` has returned, so the entry is never marked failed and no error callback runs | an upload answered with status 500 | the entry is marked failed with "Upload failed with status 500" and the error is reported | high, not executed | UploadList.AsWrittenRefusedLoadStaysUploading | UploadList.FinalEventSettles |
| frontend/src/components/chat/MessageInput_T3.003.tsx:72-77 | the typing timeout checks the `isTyping` captured when the keystroke was handled, which is still false after the first keystroke | type one character, then pause | the pause sends stop-typing and lowers the indicator | high, not executed | MessageInput.AsWrittenFirstKeystrokeStaysTyping | MessageInput.PauseLowersIndicator |
| frontend/src/hooks/useAudioRecorder_T3.004.ts:46-56 | the interval calls a `stopRecording` captured before recording began, whose guard sees `isRecording` false | start recording and let the clock reach the maximum duration | recording stops at the maximum duration | high, not executed | AudioRecorder.AsWrittenNeverAutoStops | AudioRecorder.TickStopsAtMax |
| frontend/src/hooks/useAudioRecorder_T3.004.ts:200-206 | resume restarts the interval with the callback built while paused, which skips every tick | start, pause, resume, wait a second | the time shown advances after resuming | high, not executed | AudioRecorder.AsWrittenResumeFreezesTime | AudioRecorder.ResumedTimeAdvances |
| frontend/src/hooks/useAudioRecorder_T3.004.ts:119-146 | the stop handler reports the `recordingTime` captured when recording started | record for several seconds, then stop | the completion reports the duration recorded | high, not executed | AudioRecorder.AsWrittenReportsStartDuration | AudioRecorder.CompletionReportsDuration |
| backend/src/modules/audit/audit.service_T1.005.ts:293-298 | the report reads logs through `findLogs`, whose default limit is 100, so totals and breakdowns count at most 100 logs and the 1000-entry cap never applies | a company with 101 logs in the period | the report counts every log in the period | high, not executed | Audit.AsWrittenReportUndercounts | Audit.GenerateAuditReport |
| backend/src/jobs/transcript_save.job_T3.005.ts:155-161 | excluding deleted messages tests `metadata.deleted`, while a soft-deleted attachment is marked by `deleted` at the top of its content | a transcript with a soft-deleted attachment and deleted messages excluded | the soft-deleted attachment is excluded | medium, not executed | Transcripts.AsWrittenKeepsSoftDeleted | Transcripts.ApplyTranscriptOptions |
| backend/src/modules/chats/messages.service_T3.005.ts:313-318 | the JSON filter `equals: undefined` on the `deleted` path is dropped, so no message is excluded | a conversation holding a message marked deleted, read with default options | deleted messages are left out unless asked for | medium, not executed | Messages.AsWrittenReturnsDeleted | Messages.GetConversationMessages |
| frontend/src/components/UploadAttachment_T3.004.tsx:94-103 | every status update rebuilds the entry as `{ ...f, … }`, which keeps only a `File`'s own properties and so loses its `name`, `type` and `size`; uploading such an entry again calls `getFileType` on an undefined type, which throws before the `try`, and `uploadFiles` never clears its uploading flag; the same loss makes the list's icon (line 297) throw for a started file that is not an image | drop an image and let its upload fail on the network, then drop another file and press "Upload All", which shows again because the new file is pending | the failed file is sent again and the panel stops uploading | medium, not executed | UploadList.AsWrittenRetryThrows | UploadList.UploadAll |
| backend/src/modules/audit/audit.controller_T1.005.ts:153-235 | the event routes pass `req.user.id` as the actor, but the token strategy (backend/src/modules/auth/jwt.strategy_T1.003.ts:24-29) puts the user's id under `userId`, so every event is logged without an actor and refused | any signed-in user signs out | the caller's id is recorded as the actor | medium, not executed | AuditApi.AsWrittenLogoutNotRecorded | AuditApi.PostEvent |
| backend/src/modules/audit/audit.controller_T1.005.ts:39-41 | a log whose body names no actor gets `req.user.id`, which is undefined, as its actor | an agent posts a log without `actorId` | the caller's id is recorded as the actor | medium, not executed | AuditApi.AsWrittenPostLogLosesCaller | AuditApi.PostLog |
| backend/src/modules/users/users.controller_T1.004.ts:100 | the body goes through a `ValidationPipe` without `whitelist`, and the service spreads it whole into the update (users.service_T1.004.ts:190), so columns the DTO leaves out are written | a PATCH body naming `passwordHash` or `email` | only the fields the update DTO declares, email, company and hash left out, are written | medium, not executed | Users.AsWrittenUpdateRewritesCredentials | Users.UpdatePasswordOnlyHashed |
| backend/src/modules/companies/companies.controller_T1.004.ts:95 | the body goes through a `ValidationPipe` without `whitelist`, and the service writes it whole (companies.service_T1.004.ts:141-143), so a `cnpj` the DTO leaves out is written, unvalidated | a PATCH body naming a new `cnpj` | the CNPJ is not part of an update | medium, not executed | Companies.AsWrittenUpdateRewritesCnpj | Companies.UpdateKeepsCnpjs |
| backend/src/modules/users/users.controller_T1.004.ts:27 | the body goes through a `ValidationPipe` without `whitelist`, and the service spreads it whole, less the password, into the insert (users.service_T1.004.ts:43-48), so columns the DTO leaves out are written | a registration body naming `isDeleted: true` and an old `createdAt` | only the declared fields are taken; a new user is live and created now | medium, not executed | Users.AsWrittenCreateTakesGivenColumns | Users.Create |
| backend/src/modules/companies/companies.controller_T1.004.ts:26 | the body goes through a `ValidationPipe` without `whitelist`, and the service passes it whole as the insert (companies.service_T1.004.ts:27-29), so columns the DTO leaves out are written | a registration body naming an old `createdAt` | only the declared fields are taken; a new company is created now | medium, not executed | Companies.AsWrittenCreateTakesGivenDate | Companies.Create |
| backend/src/jobs/transcript_save.job_T3.005.ts:343 | the sender name is written bare, while only the content is quoted | a message from a sender named "Silva, Ana" | the name is quoted like the content, so every row reads back as five fields | medium, not executed | Transcripts.AsWrittenExportSplitsCommaName | Transcripts.TranscriptsToCsvRoundTrip |
