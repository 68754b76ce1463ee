# Streaming and chat service: a verified model

This project models the three stateful parts of the service and proves what they keep, over every run.

**Uploads and transcoding.** `Pipeline.dfy` is a machine whose atomic steps are the calls that uploaders and consumers
make on the local disk, the video table, the object store and the job queue. Any number of uploads, consumers and jobs
interleave; every call may fail before or after taking effect; consumers crash; unacknowledged deliveries return.
`PipelineInvariant.dfy` proves the invariant of every step, `PipelineTheorems.dfy` the consequences for whole runs (a
ready video is complete, ready is forever, no job is lost), `Recovery.dfy` that nothing is ever stuck, `Playback.dfy`
what readers get, `TempFiles.dfy` what depends on how temporary files are named, and `StreamingService.dfy` writes the
uploader and the consumer as the code runs them and proves that each run of theirs is a run of the machine.
`UploadStream.dfy` models the client stream that feeds an upload, `Keys.dfy` the object keys.

**Chat.** `Rooms.dfy` and `RoomTheorems.dfy` treat invitations, private rooms and groups as a state machine over the
two collections; `RoomService.dfy` is the use-case code on updatable collections. `Messages.dfy` models the
one-document-per-room-and-day store and a plain per-room log, `MessageDays.dfy` proves that each bucket is its day of
the log, `MessageQueries.dfy` the date-sorted query and the before-a-moment query, `Unread.dfy` the counting pipeline,
the earliest-unread scan and the history both follow from; `MessageService.dfy` is the code with its loops.
`Calendar.dfy` proves that text order of `YYYY-MM-DD` dates is calendar order.

**Member sessions.** `Sessions.dfy` models the key store with deadlines and proves that the timeout check is decided
by the history alone; `MemberService.dfy` is the code.

`Wrappers.dfy`, `Lex.dfy` and `Decimal.dfy` hold shared definitions: results, string order, decimal text.

## Reading the contracts

Where the code updates something in place the model is a class whose methods are the code, with its loops. Their
contracts tie the new state and the reply to a specification function of the old state (`Step`), or, for uploads and
consumers, to runs of the machine (`Runs`, or `Leads`, which is the same). The theorems are about those functions and
runs. `Write` says of each write whether it succeeds, fails without effect, or fails after taking effect; the theorems
hold for every choice.

## Assumptions

- Transcoding is a function of the input bytes. A failed attempt may leave arbitrary files in its output directory
  (`leftover`), which a later attempt overwrites and uploads along with its own.
- Each consumer has its own work directory, apart from the uploads' temporary files.
- Creating a name on disk takes a new file; opening a name in use keeps its file and empties it; a file whose name is
  removed lives on for the upload that has it open. Filling a temporary file is one write from its start, as it is for
  a request held in memory of less than 1 GiB; a file that is truncated in the middle of a longer write is not
  modelled. Reading it back for the object store is one step too.
- Row identifiers given by the table are new and positive. Storing one object is atomic, and so is saving one row.
- The broker hands a delivery to one consumer, keeps it until it is settled or returned, and the encoding of a job
  decodes to the same job.
- Message and room identifiers are parameters; nothing is assumed of them, except that inserting a room under a used
  identifier is refused.
- Chat use-case calls are atomic steps with one clock reading each. A find errs only when nothing matches; the code
  takes any error of one for absence, and what a passing error on an existing document does is not modelled.
- Clocks count whole seconds and do not go back. The date text of a reading is given by a function (`Zone`); what
  needs its dates to go forward says so, and coordinated universal time does so through the year 9999.

## Findings

- **Shared temporary files** (`internal/streaming/app/streaming_usecase.go:100`). Uploads of one file name use one
  path. Opening it empties the file, writing goes through the open file, reading back and removing go by path.
  `TempFiles.PathGuardIsExact` says exactly when an opening is harmless in every later run: each upload that has yet
  to store its original from the path sends the same bytes, has not written them yet, and the path still names its
  open file. A client retrying the same file can fail this (`TempFiles.ReopenedPathCorrupts`), also before anything is
  written (`TempFiles.SameBytesCorrupt`). Completeness of ready videos does not depend on it: it speaks of the stored
  original.
- **Errors with a queued job** (`internal/streaming/app/streaming_usecase.go:165-174`). An upload returns an error
  although its job is queued exactly when clean-up fails or a publish that took effect reports an error
  (`StreamingService.Service.UploadVideo`, `StreamingService.ErrorsThatQueue`).
- **Dates that go back** (`internal/chat/app/message_usecase.go:50`). The date order of a room's buckets is its send
  order if and only if no send carried a date that sorts before an earlier one's
  (`MessageQueries.BucketsByDateAreTheLog`). A clock set back over midnight breaks it
  (`MessageQueries.DatesGoingBack`), and so do five-digit years, where text order and calendar order part
  (`Calendar.FormatOrderEndsAt9999`).
- **The last member cannot leave** (`internal/chat/domain/room.go:30`), of a group or of a private room: an empty
  member list is not written (`RoomTheorems.ExitRemovesUnlessLast`).
- **Stranded invitations** (`internal/chat/app/room_usecause.go:150-174`). The status is written before the room is
  created. `RoomTheorems.StrandedExactly` says when an acceptance ends without a room, with two runs in
  `RoomTheorems.StrandedRuns`. That ordered pair is then closed for good; the two people can still get their room by
  inviting in the other direction, and no longer once that invitation is accepted too
  (`RoomTheorems.RecoverableExactly`).
- **Identifiers with leading zeros** (`internal/streaming/app/streaming_usecase.go:185`) pass the playback gate, and
  reads by the same text then find nothing (`Playback.OtherTextsReadNothing`).
- **Reconnecting after a lapse** (`internal/member/app/member_usecase.go:203-217`) reports success and revives
  nothing.

## Model

| member | source | states |
|---|---|---|
| PipelineInvariant.StepKeepsInv | internal/streaming/app/work.go:111-170 | Every step of every upload and consumer, failures and crashes included, keeps the invariant of table, objects and broker, and nothing a published video relies on is lost or altered. |
| PipelineTheorems.RunKeepsInv | internal/streaming/app/work.go:58-170 | Any interleaving of any length keeps the invariant and every settled video's row, origin and readiness. |
| PipelineTheorems.ReadyIsComplete | internal/streaming/app/work.go:111-170 | In every reachable state a ready video has every file of the transcode of its own stored original under its own prefix, with the right bytes. |
| PipelineTheorems.ReadyIsForever | internal/streaming/app/work.go:150-158 | A ready row never changes again: it is what its upload saved, marked ready, through every later full-row save. |
| PipelineTheorems.RowsHoldTheirUpload | internal/streaming/app/streaming_usecase.go:116-149 | In every reachable state the row of a published or ready video has the title, description and type of its upload, no views, and its own original's key as file name, and the job carries that key and type. |
| PipelineTheorems.NoJobLost | internal/streaming/app/work.go:58-97 | Every published job is queued, held unacknowledged, or its video is ready; and it is in at most one of the first two places, once. |
| Recovery.AlwaysRecoverable | internal/streaming/app/work.go:58-170 | From every reachable state of the whole machine, whatever consumers crashed, failed or are at work and whatever acknowledgements were lost, some continuation has the video of every job published so far ready. |
| Playback.WatchableIsPlayable | internal/streaming/app/streaming_usecase.go:184-297 | For any identifier text the playback gate opens exactly when the video it parses to is ready, and then returns the uploaded title and the playlist address of that identifier, through which every transcoded file can be read with the right bytes. |
| Playback.OtherTextsReadNothing | internal/streaming/app/streaming_usecase.go:184-297 | Through the text itself nothing can be read unless it is the plain decimal of that identifier, as with "007", or of a row beyond the parser's range. |
| Playback.LeadingZeros | internal/streaming/app/streaming_usecase.go:184-297 | In every reachable state with video 7 ready the gate opens for "007" and every read by that text fails. |
| Playback.PlaylistPrecedesSegments | internal/streaming/app/work.go:136-148 | The playlist is listed, hence uploaded, before every segment. |
| Playback.PlaylistAlone | internal/streaming/app/work.go:140-158 | For any transcode whose playlist is listed first, a reachable state has the playlist readable, every other file missing and the video not ready. |
| TempFiles.JobsNameTheirUpload | internal/streaming/app/streaming_usecase.go:100-165 | When every path is opened harmlessly (see `PathGuardIsExact`), every job queued, held or worked on names a row of the same file name and an object with exactly the uploaded bytes. |
| TempFiles.ReadyServesTheUpload | internal/streaming/app/streaming_usecase.go:100-165 | Under the same guard a ready video serves the transcode of the bytes its uploader sent. |
| TempFiles.SharedPathCorrupts | internal/streaming/app/streaming_usecase.go:100-112 | From any state where a second upload of other bytes opens a path in use, some continuation publishes a job for the wrong bytes. |
| TempFiles.ReopenedPathCorrupts | internal/streaming/app/streaming_usecase.go:100-112 | So it is with any bytes, the same ones included, when the first upload has filled its file and not yet stored it. |
| TempFiles.LostNameCorrupts | internal/streaming/app/streaming_usecase.go:101-132 | And so it is with any bytes when the first upload's open file has lost its name to another upload's clean-up. |
| TempFiles.SameBytesCorrupt | internal/streaming/app/streaming_usecase.go:100-174 | Such a state is reached by harmless openings alone: one upload queues, a second opens the path, the first removes it; a third with the second's own bytes then makes the second publish a job for others. |
| TempFiles.PathGuardIsExact | internal/streaming/app/streaming_usecase.go:100-174 | Opening a path for any bytes is harmless in all careful continuations if and only if each upload still to store its original from it sends the same bytes, has not written them yet and still has the path name its open file (or the bytes are none). |
| StreamingService.Service.UploadVideo | internal/streaming/app/streaming_usecase.go:93-181 | For every point of failure: which row, with which title, description, file name, type, status and views, which original with which bytes, and which job are there afterwards; the upload runs exactly the machine steps before that point and succeeds only if all do; its job is queued on success, when only clean-up fails, and when a publish that took effect reports an error, and in no other case. |
| StreamingService.Service.CopyFile | internal/streaming/app/streaming_usecase.go:108-113 | A failed copy leaves the written part in the temporary file and ends the upload. |
| StreamingService.Service.PublishMessage | internal/streaming/app/streaming_usecase.go:155-168 | The job is queued once the publish took effect, whatever is reported. |
| StreamingService.Service.RemoveFile | internal/streaming/app/streaming_usecase.go:170-174 | A failed removal ends the upload with an error after its job was queued. |
| StreamingService.ReadDir | internal/streaming/app/work.go:136-139 | A directory listing has each name once, in ascending order. |
| StreamingService.Service.UploadOutputs | internal/streaming/app/work.go:140-148 | Outputs are stored one by one in listing order; the loop completes exactly when no upload fails, and otherwise leaves stored exactly the files before the failing one, and that one if its upload took effect. |
| StreamingService.AllOutputs | internal/streaming/app/work.go:140-148 | Storing a whole listing leaves every file under its own key, with no file overwritten by a later one. |
| StreamingService.Service.ProcessTranscodingJob | internal/streaming/app/work.go:111-170 | A successful attempt has stored every file of the transcode and changed one row, to ready; a failed one has changed no row, unless the final save took effect; without a fault, with original and row present, it succeeds; every attempt is a run of the machine. |
| StreamingService.Service.HandleMessage | internal/streaming/app/work.go:58-97 | A message is delivered once, acknowledged when its attempt succeeded and put back otherwise. |
| StreamingService.Service.StartConsumer | internal/streaming/app/work.go:40-103 | With n jobs queued and F failing attempts the run has at most n + F deliveries, every job is acknowledged and every one of their videos is ready; it terminates by queue size plus failures left. |
| UploadStream.ReceiveUpload | internal/streaming/app/streaming_handler.go:23-82 | For every message sequence: a broken stream or an unknown message, and nothing else, aborts; otherwise missing metadata and missing content are told apart, and what is accepted is the last metadata with all chunks in order. |
| UploadStream.FileReader.Read | internal/api/handlers/streaming_handler.go:88-96 | A read fills the front of the buffer with the next bytes, none only at the end. |
| UploadStream.SendUpload | internal/api/handlers/streaming_handler.go:69-108 | Over one reused 32 KB buffer, for every sequence of read sizes, the messages are one metadata and chunks of 1 to 32768 bytes that spell out the part of the file read so far, all of it on completion; the loop completes exactly when no read or send it gets to fails. |
| UploadStream.UploadRoundTrip | internal/streaming/app/streaming_handler.go:58-82 | Whatever the reads were, the server accepts exactly the file; only an empty file is refused. |
| UploadStream.RechunkingIsInvisible | internal/streaming/app/streaming_handler.go:43-52 | Cutting a chunk in two anywhere in any message sequence changes no decision. |
| UploadStream.MetadataIgnoresChunks | internal/streaming/app/streaming_handler.go:40-42 | Chunks never affect which metadata counts. |
| Keys.KeysNeverCollide | internal/streaming/app/streaming_usecase.go:130 | Object keys determine the video and the file name, for any names with slashes, and originals and outputs never share a key. |
| Keys.KeysAsWritten | internal/streaming/app/streaming_usecase.go:130 | The keys of an example, as the format strings write them. |
| Keys.ReaderFindsProcessed | internal/streaming/app/streaming_usecase.go:256-279 | A reader's concatenated key is the consumer's formatted key if and only if the identifier text is the plain decimal of the identifier. |
| Decimal.AtoiOfDigits | internal/streaming/app/streaming_usecase.go:185 | Parsing the decimal text of an identifier gives it back. |
| Rooms.FindOnePrivateRoom | internal/chat/repository/room_repository.go:56-69 | Finds a private room containing both people if there is one. |
| Rooms.StepKeepsInv | internal/chat/app/room_usecause.go:30-199 | Every use-case call keeps identifiers unique, members present and (outside private rooms) distinct, one private room per pair and one invitation per ordered pair. |
| RoomTheorems.AtMostOnePrivateRoom | internal/chat/app/room_usecause.go:113-174 | After any history, two different people share at most one private room. |
| RoomTheorems.InvitationsMoveOneWay | internal/chat/repository/invitation_repository.go:86-94 | Invitations are never removed and their status only ever goes from pending to accepted. |
| RoomTheorems.OneInvitationEver | internal/chat/app/room_usecause.go:113-132 | Each ordered pair has at most one stored invitation, ever. |
| RoomTheorems.ClosedPair | internal/chat/app/room_usecause.go:113-158 | For a pair whose invitation is accepted, every further invite and accept is refused. |
| RoomTheorems.AcceptedIsFinal | internal/chat/app/room_usecause.go:135-174 | So it stays for that ordered pair after any later history. |
| RoomTheorems.StrandedExactly | internal/chat/app/room_usecause.go:146-174 | Accepting a pending invitation leaves it accepted and the two without a room if and only if they had none, the status was written, and the write reported an error or the room was not stored. |
| RoomTheorems.StrandedRuns | internal/chat/app/room_usecause.go:146-174 | Two-step histories that end so: the room write fails, or the status write reports an error after taking effect. |
| RoomTheorems.RecoverableExactly | internal/chat/app/room_usecause.go:113-174 | Two different people without a room can still get one, in some later history, if and only if not both directions' invitations are accepted. |
| RoomTheorems.AcceptSucceedsOnce | internal/chat/app/room_usecause.go:135-174 | Over a whole run acceptance succeeds at most once per ordered pair. |
| RoomTheorems.AcceptSucceedsExactly | internal/chat/app/room_usecause.go:135-174 | An acceptance succeeds if and only if the invitation was pending, its status was written, and the two have a room or one was created. |
| RoomTheorems.AcceptGivesTheirRoom | internal/chat/app/room_usecause.go:160-174 | A successful acceptance returns a private room with both people, the only one. |
| RoomTheorems.MembershipIsProper | internal/chat/app/room_usecause.go:99-106 | Folding any joins and exits over a proper member list gives a non-empty list without duplicates. |
| RoomTheorems.GroupIsItsHistory | internal/chat/app/room_usecause.go:57-199 | After any history a group's document is as created, administrator included, with exactly the members that its effective joins and exits fold to. |
| RoomTheorems.ExitRemovesUnlessLast | internal/chat/app/room_usecause.go:177-199 | Leaving any room removes the member and nobody else, except that a member beside whom there is nobody stays. |
| RoomService.AddIfMissing | internal/chat/app/room_usecause.go:99-106 | The loop appends exactly when the value is absent. |
| RoomService.RoomUseCase.SaveRoom | internal/chat/repository/room_repository.go:48-53 | Saving a room overwrites its fields one by one, keeps what is stored where a field marked to be omitted is given empty, and changes no other document. |
| RoomService.RoomUseCase.FindInvitationByPending | internal/chat/repository/invitation_repository.go:55-83 | The cursor loop returns the pending invitations addressed to the user, in order. |
| RoomService.PendingMembers | internal/chat/repository/invitation_repository.go:55-83 | That list has exactly the stored invitations that are pending and addressed to the user. |
| RoomService.RoomUseCase.ExecuteRoom | internal/chat/app/room_usecause.go:30-66 | Succeeds exactly for a non-private room under an unused identifier whose write succeeds; the one new document has each given field, the creator as only member and, in a group, as administrator. |
| RoomService.RoomUseCase.JoinRoom | internal/chat/app/room_usecause.go:69-97 | Succeeds exactly when the group lets the user in, by its mode and password, and the write succeeds; then the user, unless there already or the mode unknown, is appended to its members, and nothing else changes. |
| RoomService.RoomUseCase.ExitRoom | internal/chat/app/room_usecause.go:177-199 | Succeeds exactly when the room exists and the write succeeds; its members are then those without the user, or as before if nobody is left, and nothing else changes. |
| RoomService.RoomUseCase.ExecuteInvite | internal/chat/app/room_usecause.go:113-132 | Succeeds exactly when the ordered pair has no invitation and the write succeeds; the one new document is pending, and the invitee's pending list grows by exactly it. |
| RoomService.RoomUseCase.ExecuteAccept | internal/chat/app/room_usecause.go:135-174 | Succeeds exactly when the invitation was pending, its status was written, and the two have a room or one was created; it is then accepted, the returned identifier is that of a private room with both people, and any new document is exactly that room. |
| Calendar.CivilIsGregorian | internal/chat/app/message_usecase.go:50 | Counting days one by one from 1970 agrees with the closed form of the Gregorian calendar. |
| Calendar.KnownDates | internal/chat/app/message_usecase.go:50 | Known leap years and a known day count. |
| Calendar.KnownText | internal/chat/app/message_usecase.go:50 | The date text of the source's own example. |
| Calendar.FormatOrder | internal/chat/repository/message_repository.go:71-75 | While years have four digits, the text order of zero-padded dates is calendar order. |
| Calendar.FormatOrderEndsAt9999 | internal/chat/repository/message_repository.go:71-75 | It is not beyond: a concrete pair of days. |
| Calendar.DateStringMonotone | internal/chat/app/message_usecase.go:50 | Later readings never carry a date that sorts earlier, through the year 9999. |
| MessageDays.BucketsAreDays | internal/chat/app/message_usecase.go:39-127 | After every history, in every time zone and on every clock, a room has at most one bucket for each date, it holds exactly that day's part of the room's log, and a day without a bucket has nothing in the log. |
| MessageDays.RowsAreTheLog | internal/chat/app/message_usecase.go:39-127 | While a room's dates go forward, its buckets are in ascending order of date, each with non-decreasing times on its own date, and laid end to end they are the room's log with its readers. |
| Messages.ZoneForward | internal/chat/app/message_usecase.go:50-57 | A date function that never goes back gives every room's log dates that go forward. |
| MessageDays.RepliesFollowTheLog | internal/chat/app/message_usecase.go:39-127 | After every history a send or mark-read call succeeds exactly when the per-room log says so. |
| MessageQueries.OnlySortedArrangement | internal/chat/repository/message_repository.go:73-75 | Any sort by date returns distinct dates in one way only. |
| MessageQueries.BucketsByDateAreTheLog | internal/chat/repository/message_repository.go:68-81 | A room's buckets in date order, laid end to end, are its successful sends in send order if and only if no send carried a date sorting before an earlier send's. |
| MessageQueries.UtcStoreIsTheLog | internal/chat/app/message_usecase.go:50-81 | In coordinated universal time the bucketed store refines the log through the year 9999. |
| MessageQueries.DatesGoingBack | internal/chat/app/message_usecase.go:50-81 | Two sends across a midnight that the zone's clock then goes back over: no answer of the date-sorted query, laid end to end, is the log. |
| MessageQueries.MessagesBeforeAreTheLogs | internal/chat/repository/message_repository.go:96-121 | In every time zone the before-a-moment query returns exactly the longest prefix of that day's part of the log before the moment, and errs exactly when the day has none. |
| Unread.PipelineSeesTheRows | internal/chat/repository/message_repository.go:123-135 | Unwinding and matching keeps, for each room, exactly the unread messages of its rows. |
| Unread.ReportIsExact | internal/chat/repository/message_repository.go:123-159 | However ties fall, a report has one entry for each room with unread messages and none for others, with the right count and the latest of their times. |
| Unread.UnreadIsSendsLessMarks | internal/chat/app/message_usecase.go:53-127 | After every history a person's unread messages in a room number the others' sends there less that person's effective marks. |
| Unread.MarksAreSuccesses | internal/chat/app/message_usecase.go:104-127 | Effective marks are the mark-read calls that reported success, whenever failing writes have no effect. |
| Unread.ReportFollowsTheHistory | internal/chat/repository/message_repository.go:123-159 | The pipeline's count is the history's count, and rooms at zero are absent. |
| Unread.QueriesAgree | internal/chat/repository/message_repository.go:68-159 | On every collection the earliest-unread scan finds nothing exactly when the pipeline has no entry; otherwise a bucket with something unread and nothing unread in earlier-dated buckets. |
| Unread.ScanFindsTheEarliestDay | internal/chat/repository/message_repository.go:68-94 | After every history, in every time zone, the scan finds nothing exactly when the whole log is read, and otherwise returns the whole of the earliest-dated day with a message the user has not read. |
| Unread.EarliestUnreadIsTheLogs | internal/chat/repository/message_repository.go:68-94 | While the room's dates go forward that is the day of the first message of the log that the user has not read. |
| MessageService.ChatMessageRepository.UpdateBucket | internal/chat/repository/message_repository.go:60-65 | After an effective update of an existing document, a find by its room and date returns the new one and every other find returns what it did; without one nothing changes. |
| MessageService.ChatMessageRepository.FindEarliestUnread | internal/chat/repository/message_repository.go:68-94 | The nested loops return nothing exactly when every bucket of the room is read, and otherwise a bucket of it with something unread and nothing unread in earlier-dated ones. |
| MessageService.ChatMessageRepository.FindMessagesBefore | internal/chat/repository/message_repository.go:96-121 | Succeeds exactly when the date has a bucket, and returns exactly its messages before the moment, in order. |
| MessageService.ChatMessageRepository.CountUnreadMessagesByRoom | internal/chat/repository/message_repository.go:123-159 | Returns a report of the collection, latest unread message first. |
| MessageService.SendMessageUseCase.Execute | internal/chat/app/message_usecase.go:39-101 | Succeeds, with the new identifier, exactly when the room exists and the write succeeds; the day's bucket then ends with the message as sent, read by its sender, and every other find is unchanged; a failed call publishes nothing, and the attempts of a successful one are, for members without duplicates, exactly one notice of the same message to each member but the sender, whoever is unreachable. |
| MessageService.SendMessageUseCase.MarkRead | internal/chat/app/message_usecase.go:104-127 | Succeeds exactly when the first message of that identifier in today's bucket is unread by the user and the write succeeds; that message then has the user as one more reader, and nothing else changes. |
| MessageService.SentCanBeMarked | internal/chat/app/message_usecase.go:39-127 | After a stored send another person can mark the message on the same date by the returned identifier, if it is new to the day, and the message then has exactly the two readers. |
| MessageService.SendMessageUseCase.AddReader | internal/chat/app/message_usecase.go:112-122 | The loop adds the user to the first message of that identifier alone, and only if missing. |
| MessageService.EveryOtherMemberOnce | internal/chat/app/message_usecase.go:83-91 | In every reachable set of rooms a group's members have no duplicates, so the notices of a group message are exactly one to each current member but the sender, and no others. |
| Sessions.CheckDecidesLiveness | internal/member/app/member_usecase.go:176-198 | The timeout check reports live exactly when there is a login after the last logout and no gap of the lifetime between it, the later refreshes and now. |
| Sessions.ReconnectDoesNotRevive | internal/member/app/member_usecase.go:203-217 | Reconnecting after a lapse reports success and leaves the session lapsed. |
| Sessions.LapsedUntilLogin | internal/member/app/member_usecase.go:89-217 | A lapsed session stays lapsed through any history without a login of that member. |
| MemberService.RedisRepository.Set | pkg/database/redis.go:108-117 | The key then holds the session and is there exactly until the lifetime has passed, for ever if it is zero; other keys stay. |
| MemberService.RedisRepository.ExtendTTL | pkg/database/redis.go:143-146 | A key still there keeps its session and is there exactly until the new lifetime has passed; an absent or expired key stays so; other keys stay. |
| MemberService.RedisRepository.GetTTL | pkg/database/redis.go:148-161 | The key is there exactly for the returned seconds; none are returned exactly for a key that is not there or never expires. |
| MemberService.MemberUseCase.Login | internal/member/app/member_usecase.go:89-130 | Succeeds exactly with account, password, token and both writes; the stored session has each field, the member is online and live exactly until the lifetime has passed; nobody else's liveness changes. |
| MemberService.MemberUseCase.Logout | internal/member/app/member_usecase.go:133-155 | Succeeds exactly with a valid token and both writes; the member is then offline and timed out at every time; nobody else's liveness changes. |
| MemberService.MemberUseCase.ForceLogout | internal/member/app/member_usecase.go:159-173 | Succeeds exactly when both writes do; the member is then offline and timed out at every time; nobody else's liveness changes. |
| MemberService.MemberUseCase.CheckSessionTimeout | internal/member/app/member_usecase.go:176-198 | Times out on every error and otherwise exactly when no time is left. |
| MemberService.MemberUseCase.ReconnectSession | internal/member/app/member_usecase.go:203-217 | Succeeds exactly with a valid token and a successful write; a live session is then live exactly until the lifetime has passed anew, and a lapsed one stays lapsed; nobody else's liveness changes. |

## Left out

- StreamingService.Service.StartConsumer: settles every delivery successfully and ends when the queue is empty; failing
  acknowledgements, crashes and concurrent consumers are steps of the machine (`SettleFails`, `Crash`, `Return`) instead,
  and `Recovery.AlwaysRecoverable` starts from any state they lead to. A delivery that keeps failing without end is
  outside the n + F bound.
- StreamingService.Service.UploadVideo: the temporary path is a parameter; how `filepath.Join` cleans a file name with
  dots or slashes is not modelled.
- RoomTheorems.AtMostOnePrivateRoom: private rooms arise from acceptance only, because the socket creates rooms with one
  member; `ExecuteRoom` called directly with two members is not among the events.
- MessageService.EveryOtherMemberOnce: rooms other than private ones, since a self-invitation names one person twice.
- Interleaved sends or reads on one bucket: find and update have no lock, so only atomic calls are covered.
- Delivery of chat notifications to connected sockets; the model ends at the publish attempts.
- WebSocket reading, pings, close handling and the room contexts.
- Malformed queue messages, which are requeued for ever.
- Search and recommendations, delegated to SQL; the member query builder; password rules.
- The gateway's logout handler, which passes a member identifier where a token is expected.
- The older copy of the upload sequence in `internal/streaming/api/handlers/video_handler.go`.
- FFmpeg, JWT, bcrypt and the database, queue and object-store clients: abstract stores or parameters.
- Configuration, logging, retries on connect, routing, generated protobuf code.
