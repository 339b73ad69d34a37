# psy-telegram-bot, modelled in Dafny

The bot puts each client of a psychology service in touch with operators. A client writes to
it in a private chat. The bot keeps one forum topic per client in an admin supergroup. It runs
a short survey: a category, a name, a mood, then three follow-up questions that depend on the
mood. After that the session becomes free chat. Operators answer inside the client's topic, and
"/finish" closes the session. Every message is logged in SQLite. A survey spreadsheet can be
sent into the topic. Old spreadsheets in the exports directory are pruned.

The model follows the source file by file:

- `Config` (`src/config.js`): settings read from the environment, and the survey's
  category, mood and follow-up tables.
- `Telegram` (`src/telegram.js`): the retry loop of a Bot API call and the reading of a
  "retry after" hint.
- `Store` (`src/db.js`): the SQLite index as a class. Its fields are the tables it changes:
  sessions, client topics, the bot offset and the message log. Its methods are the
  statements `db.js` runs on them.
- `Excel` (`src/excel.js`): the retention limits, the survey sheet, the export file names and
  the cleanup of the exports directory.
- `Export` (`src/export.js`): the per-session export queue as a class, with its `pending`
  map and `running` set.
- `Transport`, `Binder`, `Survey`, `Bot` (`src/index.js`):
  - `Transport`: the Bot API as the handlers see it, a call log plus an oracle of replies.
  - `Binder`: the topic cache and the strict, thread-checked sends.
  - `Survey`: the pure tables and parsers of the handlers.
  - `Bot`: the private and group handlers and one batch of the polling loop. A ghost trace,
    `served`, records the messages handed to the handlers, in order.
- `Text` and `Wrappers`: the JavaScript string built-ins the code relies on (`trim`,
  `split`, `Number`, `String`, `toLowerCase`), and `Option`/`Result`.

Clock values are parameters (`now`). Replies of the Bot API are an input of the model: the
reply to the n-th call is `answer(n)`. A failed Bot API call, and a topic binding that clashes
with the unique index, is an `Err` result, propagated just as the `await` chain propagates a
throw. Failures of SQLite statements are not modelled (see "Left out").

## Model

| member | source | states |
|---|---|---|
| Config.FollowUps | src/config.js:61-82 | a mood key has exactly three follow-up questions, or none |
| Config.FollowUpsOfMoods | src/config.js:54-82 | the keys that have follow-up questions are exactly the keys of the moods |
| Config.ParseIntStrict | src/config.js:1-6 | fails, with the message naming the setting, exactly when the value is missing or `ToNumber` reads no number from it; otherwise yields the number `ToNumber` reads (integer literals only, see `Text.ToNumber` under "Left out") |
| Config.ParseIntStrictOfNumeral | src/config.js:1-6 | the decimal numeral of any integer is accepted as that integer |
| Config.NumericFields | src/config.js:8-14 | never more numbers than fields; one number per field exactly when every field reads as a number, and none exactly when no field does |
| Config.NumericFieldsOne | src/config.js:12-13 | a single field gives its trimmed number when it reads as one, and nothing otherwise |
| Config.NumericFieldsAppend | src/config.js:11-13 | the fields are read independently and their numbers kept in order: the numbers of a concatenation are the concatenation of the numbers |
| Config.ParseCsvInts | src/config.js:8-14 | an unset or empty list gives no ids; otherwise the numbers of the comma-separated fields, in order, dropping the fields that are not numbers |
| Config.Numerals | src/config.js:8-14 | the numerals of a list of ids, one per id, in order |
| Config.NumericFieldsOfNumerals | src/config.js:8-14 | fields that are numerals all parse, back to the ids they came from |
| Config.ParseCsvIntsRoundTrip | src/config.js:8-14 | a non-empty id list written with commas is read back exactly |
| Config.JoinNonEmpty | src/config.js:8-14 | a joined list whose first field is non-empty is non-empty, so it is not treated as unset |
| Config.Flag | src/config.js:25-28 | a flag is on exactly when the variable is the string "1" |
| Config.BotToken | src/config.js:16-17 | `BOT_TOKEN` wins when it is non-empty, `TELEGRAM_BOT_TOKEN` is the fallback, and there is no token exactly when both are unset or empty |
| Config.LoadSettings | src/config.js:16-28 | startup fails without a token, or with `parseIntStrict`'s message without a numeric admin group id; with both it succeeds, holding the chosen token and that group id, the operator ids and the two flags |
| Telegram.MatchAt | src/telegram.js:15 | a match of `retry after\s+(\d+)` at a position captures a non-empty run of digits |
| Telegram.FirstMatch | src/telegram.js:15 | finds the leftmost position where the pattern matches, and no match exists before it; with none found, no position matches |
| Telegram.ParseRetryAfter | src/telegram.js:11-21 | a positive `retry_after` parameter wins; otherwise the number after the first "retry after" in the description, when it is positive; the result is always positive |
| Telegram.RetryHint | src/telegram.js:49-50 | a wait is only taken from a reply whose error code is 429, and from such a reply it is the parsed retry-after hint |
| Telegram.TryOutcome | src/telegram.js:30-63 | an ok reply returns its result at once; a failed reply without a hint fails at once with "<method>: <description>"; a hint of ra seconds sleeps (ra + 1)·1000 ms and tries again; a network error sleeps 300 + 200·i ms and tries again unless the try was the last |
| Telegram.CallRaw | src/telegram.js:23-64 | the loop computes exactly the outcome and the sleeps of the attempt-by-attempt reference `CallFrom` |
| Telegram.AtMostTwelveAttempts | src/telegram.js:26 | the outcome depends only on the first twelve attempts |
| Telegram.SleepsBounded | src/telegram.js:26-55 | a call sleeps at most once per remaining attempt, and every sleep is at least 300 ms |
| Telegram.NetworkDownGivesUp | src/telegram.js:41-44 | when the network fails on every attempt, the call gives up with the network error after eleven sleeps of 300 + 200·i ms |
| Telegram.ThrottledGivesUp | src/telegram.js:49-63 | a call throttled on every attempt fails with "<method>: Telegram API error" after one sleep per attempt |
| Store.QIdent | src/db.js:19 | doubles every quote; a name without quotes is unchanged |
| Store.QIdentRoundTrip | src/db.js:19 | undoing the quote doubling gives the name back |
| Store.QIdentInjective | src/db.js:19 | distinct names stay distinct once quoted |
| Store.LatestActive | src/db.js:352-362 | finds the client's active row with the highest id, and no later row of the client is active; with none found, no row of the client is active |
| Store.StartSessionLeavesOneActive | src/db.js:331-350 | after `startSession` the new row is the client's only active session, in state CATEGORY |
| Store.AssignFiltered | src/db.js:389-397 | assigning the filtered patch entries one by one gives the same row as overlaying the allowed keys the patch holds |
| Store.PatchedColumns | src/db.js:373-409 | after `updateSession`, `updated_at_ms` is the time of the call, an allowed key of the patch holds its patched value, and every other column is unchanged |
| Store.MessageRow | src/db.js:432-448 | the log row has its fourteen columns, the last being the payload's JSON or NULL |
| Store.Keep | src/db.js:453-457 | keeps only entries whose column exists |
| Store.KeepMembers | src/db.js:453-457 | an entry is kept exactly when it is in the row and its column exists |
| Store.ToMapKeys | src/db.js:462-464 | the inserted row has exactly the columns of the kept entries |
| Store.LoggedColumns | src/db.js:420-465 | a logged row only writes existing columns, and a missing payload is stored as NULL |
| Store.Store.constructor | src/db.js:253-261 | a new index is empty and consistent |
| Store.Store.StartSession | src/db.js:331-350 | the client's active rows are closed (a closing time set only once), a new active CATEGORY row is appended, and it is the client's active session |
| Store.Store.ActiveSession | src/db.js:352-362 | the client's active session is its latest active row, or there is none |
| Store.Store.SetClause | src/db.js:389-400 | the SET list holds the allowed keys of the patch in the fixed column order, then `updated_at_ms` |
| Store.Store.UpdateSession | src/db.js:373-409 | only the row that the client owns with that id is patched; a session id not owned by the client changes nothing |
| Store.Store.SetSessionState | src/db.js:411-413 | the owned row gets the new state and a new `updated_at_ms`, and nothing else changes |
| Store.Store.FinishSession | src/db.js:415-418 | the owned row becomes inactive with its closing time set, and no other row changes |
| Store.Store.ClientTopic | src/db.js:263-270 | the stored topic of the client, when there is a row |
| Store.Store.ClientByThread | src/db.js:286-293 | the client bound to a thread, or none; no other client holds that thread |
| Store.Store.SetClientTopic | src/db.js:272-284 | the upsert succeeds unless another client already holds the thread (the unique index), and the thread index stays the exact inverse of the bindings |
| Store.Store.BotOffset | src/db.js:484-493 | the stored offset read as a number, or none when it is missing or not numeric |
| Store.Store.SetBotOffset | src/db.js:495-506 | stores the offset's numeral, and reading it back gives the offset |
| Store.Store.InsertColumns | src/db.js:450-457 | the insert lists pair up the existing columns of the row with their values, in row order |
| Store.Store.LogMessage | src/db.js:420-465 | appends the row with its existing columns, or nothing when none exists |
| Excel.Limit | src/excel.js:16-24 | a limit is above its floor, and it is the default unless the variable is a number above the floor |
| Excel.KeepDefaults | src/excel.js:16-24 | with both variables unset the directory keeps 200 files, and 30 live snapshots per session |
| Excel.KeepLimitsOfNumerals | src/excel.js:16-24 | limits written as numerals above the floors are used as written |
| Excel.BuildSurveyRows | src/excel.js:102-141 | the survey sheet has one row per survey step |
| Excel.SurveyRowsNamed | src/excel.js:102-141 | each row is named after its step's state |
| Excel.SurveyRowsHoldAnswers | src/excel.js:102-141 | each row holds the answer stored in its step's column |
| Excel.SurveyRowsAsk | src/excel.js:102-141 | the first three rows ask the fixed questions, the last three the follow-up questions of the stored mood |
| Excel.SurveyRowsOfAnswers | src/excel.js:102-141 | a session that stored six answers exports exactly those answers, with its mood's three questions |
| Excel.ExportFileName | src/excel.js:150-156 | every export is an `.xlsx` file |
| Excel.SplitDigits | src/excel.js:61 | splits off a leading non-empty run of digits that the separator ends |
| Excel.LiveKeyOfParts | src/excel.js:61 | `live_<a>_<b>_<c>.xlsx` built from three runs of digits belongs to client a and session b |
| Excel.LiveNameKey | src/excel.js:150-156 | every live snapshot the exporter names is recognised by the pruning pattern, under its own client and session |
| Excel.FixedNameNotLive | src/excel.js:150-156 | the "start" and "end" exports never match the pattern, so the per-session pass never removes them |
| Excel.Xlsx | src/excel.js:46 | the listing's spreadsheets, every one of them and nothing else |
| Excel.Insert | src/excel.js:57 | inserting a file into a newest-first list keeps it newest first and adds exactly that file |
| Excel.SortNewest | src/excel.js:57 | the sorted listing is newest first and a permutation of the listing |
| Excel.CountKeyPerm | src/excel.js:59-66 | the number of a session's live snapshots does not depend on the order of the listing |
| Excel.KeptLiveCount | src/excel.js:59-75 | the reference per-session pass `KeptLive` (a live snapshot goes once `keepLive` of its session came before it) leaves each session min(its count, `keepLive`) snapshots |
| Excel.PruneLive | src/excel.js:59-75 | the per-session pass removes exactly `PrunedLive` and keeps exactly `KeptLive` of the newest-first files, so each session's `keepLive` newest snapshots and every other file survive; the two parts partition the files; survivors stay newest first; only live snapshots of sessions over the limit are removed |
| Excel.CapTotal | src/excel.js:92-98 | the total pass keeps the first min(number of files, limit) files and removes the rest: nothing when the files fit; no removed file is newer than a kept one |
| Excel.SessionCounts | src/excel.js:59-90 | after the per-session pass each session has min(its count in the listing, `keepLive`) snapshots, whatever the listing's order; nothing is removed when every session is within its limit |
| Excel.CleanupExports | src/excel.js:40-100 | the per-session pass removes exactly `PrunedLive` of the sorted spreadsheets; kept and capped files together are `KeptLive` of them, and the kept ones are its first min(count, `keepTotal`); so each session keeps min(its count, `keepLive`) snapshots across kept and capped; removed and kept files together are exactly the spreadsheets listed; kept ones are newest first and within both limits; nothing is capped when the spreadsheets fit |
| Excel.PermutedCounts | src/excel.js:77-90 | re-listing the survivors in another order changes neither their number nor any session's count |
| Export.KeyOfInjective | src/export.js:9-10 | distinct (client, session) pairs get distinct queue keys |
| Export.MakeItem | src/export.js:44-49 | a queued item always has a tag, "live" unless one was given |
| Export.RunOnce | src/export.js:12-25 | nothing is uploaded exactly when sending is off, or the group or the thread is unset; otherwise the named export goes into that thread of that group |
| Export.RunOnceNamesLiveSnapshot | src/export.js:16 | every upload that is not "start" or "end" is a live snapshot the cleanup recognises |
| Export.Scheduler.constructor | src/export.js:6-7 | nothing is pending or running |
| Export.Scheduler.Schedule | src/export.js:42-51 | the session's pending item is replaced by the newest request |
| Export.Scheduler.PumpStart | src/export.js:27-29 | a pump starts only when none is running for the key |
| Export.Scheduler.PumpStep | src/export.js:31-36 | takes the pending item and runs it, or stops the pump when nothing is pending |
| Export.Scheduler.PumpFail | src/export.js:37-39 | a failing run still marks the key as not running |
| Export.Scheduler.Burst | src/export.js:27-51 | several requests before the pump runs upload only the last one, and leave nothing pending or running for that key; other keys are untouched |
| Survey.SafeUserLabelShape | src/index.js:29-36 | the label ends with the client id, starts with "@username" when there is one, and is the id alone exactly when there is no username and the name is blank |
| Survey.TwoColRows | src/index.js:38-46 | the buttons are laid out two per row, in order |
| Survey.TwoColumnsFlatten | src/index.js:38-46 | reading the rows back gives the buttons; each row holds one or two, and all but the last hold two |
| Survey.FirstWhere | src/index.js:67-71 | finds the first item satisfying the test, and no earlier one does |
| Survey.MatchChoice | src/index.js:63-73 | a match is an index into the items |
| Survey.MatchChoiceFirst | src/index.js:63-73 | the choice is the first item whose button text or label equals the trimmed, non-blank text; no choice means a blank text or no such item |
| Survey.BurnoutBNeverChosen | src/config.js:33-52 | the second burnout category repeats the first one's label and emoji, so it can never be chosen |
| Survey.DetectMsgType | src/index.js:75-86 | the kind is "text" exactly when there is text, and the logged text is the text or the bracketed kind |
| Survey.DetectsMedia | src/index.js:75-86 | without text, the kind is the first attachment in priority order, or "unknown" when there is none |
| Survey.TopicTitle | src/index.js:93 | a topic title is "client_" followed by the id |
| Survey.TopicTitleInjective | src/index.js:93 | distinct clients get distinct topic titles |
| Survey.FirstSpace | src/index.js:723 | the position found lies within the text |
| Survey.CommandIsFirstWord | src/index.js:722-723 | the command is the longest space-free prefix of the trimmed text, and empty only for a blank text |
| Survey.FinishCommand | src/index.js:722-725 | a trimmed text whose first word is "/finish" is the finish command |
| Survey.FinishWithArguments | src/index.js:722-725 | "/finish" followed by arguments is still the finish command |
| Survey.ParseStep | src/index.js:488-627 | a parsed state names its step |
| Survey.StepNameRoundTrip | src/index.js:488-627 | every step's stored name reads back as that step |
| Survey.SurveyOrder | src/index.js:527-672 | the six survey steps follow one another, and the last leads to free chat, which stays |
| Survey.After | src/index.js:488-697 | a message moves the session one step on exactly when the step accepts it |
| Survey.SixAnswersReachChat | src/index.js:488-697 | six accepted answers take a fresh session to free chat |
| Survey.RunMonotone | src/index.js:488-697 | the survey never moves backwards, moves at most one step per message, and free chat is final |
| Transport.Client.constructor | src/telegram.js:66-124 | no call has been made yet |
| Transport.Client.Call | src/telegram.js:66-124 | each call is logged and gets its reply from the oracle; only topic creation counts as creating a topic |
| Binder.DeleteOf | src/index.js:95-100 | `safeDelete` deletes one message exactly when it has a non-zero id |
| Binder.Misrouted | src/index.js:115-139 | the error names what was sent and the wanted thread |
| Binder.Stored | src/index.js:190-191 | the stored thread of the client, exactly when there is a row |
| Binder.CacheBoundSet | src/index.js:168-173 | storing and caching the same positive thread keeps every cached binding backed by the table |
| Binder.SurveyFileName | src/index.js:230 | the survey is sent as a file named `survey_<client>_<session>.xlsx` |
| Binder.Binder.constructor | src/index.js:88 | the cache starts empty |
| Binder.Binder.SafeDelete | src/index.js:95-100 | issues the delete only for a non-zero id, and swallows its failure |
| Binder.Binder.Strict | src/index.js:102-142 | one send; success exactly when the reply lands in the wanted thread; a misrouted message is deleted and reported |
| Binder.Binder.SendToThreadStrict | src/index.js:102-121 | a thread that is not positive is refused without a call; a success is in the wanted thread |
| Binder.Binder.SendDocumentToThreadStrict | src/index.js:123-142 | the same guard and check for a document |
| Binder.Binder.Probe | src/index.js:144-154 | a thread is routable exactly when it is positive and the probe lands there; the probe is then deleted |
| Binder.Binder.Bind | src/index.js:168-173 | stores and caches the new topic, or changes nothing when another client holds the thread |
| Binder.NewThread | src/index.js:165-167 | the new thread is the reply's thread exactly when the call was delivered with a positive thread id, and the reply is then routed there |
| Binder.Binder.Recreate | src/index.js:156-181 | creates exactly one topic, named after the client; on success the calls are exactly the creation and the "new client" announcement naming the client in the new thread, the client is bound to that positive thread and it is cached for ten minutes; a reply with no positive thread fails after the one call with nothing bound or cached; a thread another client holds fails with the unique-index error and nothing bound or cached |
| Binder.Binder.CreateTopic | src/index.js:157-167 | exactly one `createForumTopic` call named after the client; it succeeds exactly when the reply has a positive thread, which it returns; a raised call fails with its message, a bad thread with "createForumTopic returned invalid message_thread_id" |
| Binder.Binder.BindAndAnnounce | src/index.js:169-180 | on success the client is bound to the thread, which is cached, and the one call is the announcement naming the client in it; a thread held by another client fails with the unique-index error and changes nothing |
| Binder.Binder.Reopen | src/index.js:156-181 | one topic is created, first among the calls that follow; on success the client is bound to its positive thread and cached; other clients' bindings are untouched |
| Binder.Binder.EnsureClientTopic | src/index.js:183-209 | a fresh cache entry is used without a call; else a stored thread that the probe confirms is reused; else a topic is recreated; the result is bound to the client; at most one topic is created |
| Binder.Binder.SendToClientTopic | src/index.js:211-219 | on success the text is the last call, in a thread bound to the client; a misrouted first send is retried once in a recreated topic; at most two topics are created |
| Binder.Binder.SendAgain | src/index.js:216-217 | the retry recreates the topic and sends strictly into it |
| Binder.Binder.ForwardToClientTopic | src/index.js:377-409 | on success the forward is the last call, in a thread bound to the client; "Forward misrouted twice" only after a recreation |
| Binder.Binder.ForwardInto | src/index.js:380-409 | a forward landing in the bound thread succeeds with one call and no topic created; otherwise exactly one topic is recreated |
| Binder.Binder.ForwardAgain | src/index.js:394-409 | the second forward goes into a recreated topic |
| Binder.Binder.ForwardLast | src/index.js:396-408 | succeeds exactly when the forward lands in the recreated thread; a copy that lands elsewhere is deleted |
| Binder.Binder.SendSurveyExcel | src/index.js:221-238 | with sending off nothing happens; otherwise the document lands in the given thread or in a recreated topic, with at most one topic created |
| Binder.Binder.SendDocumentAgain | src/index.js:234-237 | the retry recreates the topic and sends the document strictly into it |
| Bot.Buttons | src/index.js:60-61 | one button per choice, emoji then label |
| Bot.NonZero | src/index.js:262 | a missing or zero message id is logged as NULL |
| Bot.WithPatch | src/db.js:373-409 | the table after patching one row keeps its length |
| Bot.WithPatchCells | src/db.js:373-409 | only row `sid` changes; it keeps its client, each allow-listed column the patch holds takes the patch's value, `updated_at_ms` becomes now, and every other column is unchanged |
| Bot.WithState | src/db.js:411-413 | the table after a state change keeps its length |
| Bot.WithStateCells | src/db.js:411-413 | only row `sid` changes; it keeps its client, its state becomes the new state, `updated_at_ms` becomes now, and every other column is unchanged |
| Bot.AnsweredExports | src/excel.js:102-141 | an accepted answer is exactly what the survey sheet exports for its step |
| Bot.Unanswered | src/index.js:488-583 | a rejected answer leaves the table as it was |
| Bot.AnswerColumnAllowed | src/db.js:375-387 | each answer column may be patched, and is neither the state nor the activity flag |
| Bot.AnswerPatchStores | src/index.js:503-651 | the patch of an accepted answer stores the answer in its step's column |
| Bot.AnswerPatchKeepsState | src/index.js:503-651 | the patch of an answer touches neither the state nor the activity flag |
| Bot.AnswerPatchMoodKey | src/index.js:586-589 | an accepted mood stores its key |
| Bot.AnswerPatched | src/index.js:503-527 | storing the answer alone leaves the state unchanged, so a failure right after it answers nothing yet |
| Bot.AnswerStored | src/index.js:503-672 | storing the answer and then the next state is a handled answer |
| Bot.MoodKeyStored | src/index.js:586-630 | the mood key stays in the row for the follow-up questions to read |
| Bot.Dispatched | src/index.js:822-851 | every message handed to a handler is a private message or one of the admin supergroup |
| Bot.DispatchedNext | src/index.js:822-851 | one more update adds its message exactly when it is routed |
| Bot.DispatchedRouted | src/index.js:826-850 | a message is dispatched exactly when a routed update of the batch carries it |
| Bot.DispatchedAll | src/index.js:829-850 | every routed update reaches its handler, in order, whatever the earlier handlers did |
| Bot.ResumeOffset | src/index.js:795-812 | a saved offset that is not negative is used; a negative one becomes 0; with none saved, reading resumes after the last pending update |
| Bot.ResumeSkipsPending | src/index.js:801-811 | with no offset saved, reading resumes past every pending update, as their ids increase |
| Bot.Bot.constructor | src/index.js:779-793 | the handlers start from a consistent binder, with no message handed over yet |
| Bot.Bot.SendToClient | src/index.js:249-253 | one send to the private chat; it fails exactly when the call raises |
| Bot.Bot.TopicSend | src/index.js:211-219 | a success is in the client's stored thread |
| Bot.Bot.TopicOf | src/index.js:183-209 | the thread is positive and stored for the client |
| Bot.Bot.TopicForward | src/index.js:359-409 | on success the last call forwards the client's message into the thread stored for the client |
| Bot.Bot.SurveyExcel | src/index.js:221-238 | nothing is sent, and no call made, exactly when sending is off; a sent spreadsheet is the last call, a document in the returned thread; when the given thread takes it, it is the only call |
| Bot.Bot.SendBotToClient | src/index.js:240-271 | the first call sends the text to the client; a delivered text is logged with its message id; a success ends with the mirror in the client's topic |
| Bot.Bot.AskWithOptions | src/index.js:273-315 | on success the last two calls are the card with the question and its buttons in the client's thread, then the question to the client; one log row with the options payload follows; a failure logs nothing |
| Bot.Bot.Ask | src/index.js:240-315 | a question with options ends with its card in the client's thread and then the question to the client; one without starts with the question to the client and ends with its mirror in the thread; log rows are only appended |
| Bot.Bot.LogAnswer | src/index.js:317-340 | the answer card goes into the topic, then the client's answer is logged |
| Bot.Bot.Relay | src/index.js:342-427 | on success the last call is `RelayRequest`, into the client's stored thread: a text as a card naming the client, anything else forwarded from the client's chat; the message is then logged with its detected kind; a failure logs nothing |
| Bot.Bot.RelayToTopic | src/index.js:349-409 | on success the last call is `RelayRequest` into the client's stored thread: the card for a text, the forward otherwise |
| Bot.Bot.RelayCard | src/index.js:352-357 | on success the last call is the card with the client's label and the text, into the client's stored thread |
| Bot.Bot.RelayForward | src/index.js:359-409 | on success the last call forwards the client's own message from the client's chat into the client's stored thread |
| Bot.Bot.Introduce | src/index.js:435-458 | on success the category question to the client is the last call |
| Bot.Bot.StartNewSessionFlow | src/index.js:429-463 | a new session is opened for the client in state CATEGORY and its id returned, or the table is unchanged |
| Bot.Bot.Reprompt | src/index.js:488-583 | a rejected answer leaves the table unchanged; on success the message is relayed (`RelayRequest` at call `at`) and afterwards the question is asked again as `Ask` states, with its buttons or plain and mirrored |
| Bot.Bot.RelayAndAsk | src/index.js:491-499 | on success the relay call comes first, at call `at`, and the question follows from call `asked` on, as `Ask` states |
| Bot.Bot.Acknowledge | src/index.js:508-619 | calls are only appended; on success the next question is asked after at least one call of its own (the answer card): with buttons, a question card in the client's thread then the question to the client; without, the question to the client then its mirror in the thread |
| Bot.Bot.Conclude | src/index.js:674-691 | the free-chat notice in the client's topic is the last call |
| Bot.Bot.PatchAndAcknowledge | src/index.js:503-525 | the answer's columns are patched into the row, and nothing else in the table changes; on success the next question is asked after at least one call of its own |
| Bot.Bot.StoreAnswer | src/index.js:503-620 | a CATEGORY, NAME or MOOD answer is handled: stored, acknowledged, then the session moves on; on success the step's next question (the name, the mood with its buttons, the first follow-up) is asked after at least one call of its own |
| Bot.Bot.MoveOn | src/index.js:527-620 | the session moves on only after the acknowledgement |
| Bot.Bot.AnswerCategory | src/index.js:488-529 | the CATEGORY step is answered, or rejected with the table unchanged |
| Bot.Bot.AnswerName | src/index.js:531-569 | the NAME step is answered with the trimmed text, or a blank text is rejected |
| Bot.Bot.AnswerMood | src/index.js:571-622 | the MOOD step is answered or rejected, and an accepted mood's key is stored in the row |
| Bot.Bot.AnswerMoodQuestion | src/index.js:624-694 | any text, even blank, answers a follow-up question; after the third, a failure either left the table as it was (the answer's log row failed) or left the answer stored and the row in CHAT |
| Bot.Bot.AskNextMoodQuestion | src/index.js:646-669 | the first two follow-ups are stored; on success the next follow-up goes to the client and is mirrored into the thread, and only then does the session move on |
| Bot.Bot.ConcludeMoodQuestions | src/index.js:650-693 | the third follow-up is stored in `mood_q3` and the row is in CHAT whatever the closing sends do, since CHAT is recorded before them |
| Bot.Bot.HandlePrivate | src/index.js:465-697 | "/start" opens a new CATEGORY session; with an active session the message answers its step; with none, a session is opened and the message answers its category step |
| Bot.Bot.OpenAndAnswer | src/index.js:480-486 | a session is opened and the message answers its first step |
| Bot.Bot.AnswerInState | src/index.js:486-696 | the message answers the stored step; in free chat or an unknown state the table is unchanged |
| Bot.Bot.HandleGroup | src/index.js:699-777 | a message from outside the group, in General, not from an operator, or in an unbound thread is ignored; otherwise the operator's session is opened if needed, and "/finish" closes it while anything else is copied |
| Bot.Bot.Operate | src/index.js:710-776 | the session is opened if needed, then closed on "/finish"; the calls end with the two notices or the copy |
| Bot.Bot.OperateInSession | src/index.js:720-776 | "/finish" closes exactly the active row; anything else leaves the table unchanged |
| Bot.Bot.OpenForOperator | src/index.js:710-718 | the client's earlier rows are closed, a new row opens, and the auto-session notice goes into the thread |
| Bot.Bot.FinishFromTopic | src/index.js:725-756 | the session is closed, the client and then the topic are told, and both messages are logged |
| Bot.Bot.AnnounceFinish | src/index.js:728-753 | the two notices in order, then the operator's command and the bot's notice are logged; a failure logs nothing |
| Bot.Bot.CopyToClient | src/index.js:758-776 | one copy to the client; logged with the copy's message id; it fails exactly when the call raises |
| Bot.Bot.ProcessBatch | src/index.js:795-851 | the offset ends after the last update and is stored, so a restart resumes right after it whatever updates are pending; the handlers are given exactly the `Dispatched` messages of the batch, in order |
| Bot.Bot.Advance | src/index.js:822-851 | the offset moves past the update and is stored; the update's message is handed to a handler exactly when it is routed |
| Bot.Bot.HandleUpdate | src/index.js:829-849 | the message is handed to its handler; a failed private message ends with the generic apology to the client |
| Bot.Bot.RestoreOffset | src/index.js:795-812 | the loop starts at the resume offset; an offset is stored only when none was |
| Text.TrimStartShape | src/index.js:33 | trimming the start removes exactly a run of white space |
| Text.TrimEndShape | src/index.js:33 | trimming the end removes exactly a run of white space |
| Text.TrimShape | src/index.js:63-73 | `trim` yields the middle part of the text, with only white space around it |
| Text.TrimIdempotent | src/index.js:64 | trimming twice is trimming once |
| Text.TrimEmpty | src/index.js:531-544 | `trim` leaves nothing exactly when the text is all white space (the full ECMAScript set, Unicode space separators included) |
| Text.IdeographicSpaceTrims | src/index.js:531-544 | a name that is one ideographic space (U+3000) trims to nothing, so it is refused |
| Text.HexLiterals | src/config.js:2 | `Number("0x1A")` is 26, and a signed hexadecimal literal is not a number |
| Text.IndexOf | src/config.js:11 | the first occurrence of the character, or the end |
| Text.Split | src/config.js:11 | the parts contain no separator and join back to the text |
| Text.SplitJoin | src/config.js:11 | splitting a join of separator-free parts gives the parts back |
| Text.NatToDigits | src/index.js:93 | a numeral is a non-empty run of digits without a leading zero |
| Text.DigitsRoundTrip | src/index.js:93 | a numeral reads back as its number |
| Text.IntToString | src/index.js:93 | `String(n)` consists of digits and a sign |
| Text.ToNumberOfIntToString | src/db.js:490-504 | `Number(String(n))` is n |
| Text.IntToStringInjective | src/index.js:93 | distinct numbers have distinct numerals |
| Text.LowerAscii | src/excel.js:46 | lower-casing keeps the length and maps each character |

## Left out

- `upsertClientProfile` and `getClientProfile` (`src/db.js:295-329`): the profile table is only written, never read by the handlers, so it is not modelled.
- Writing the spreadsheet file (`exportSessionXlsx`, ExcelJS, `fs`, the time formatting of `isoFromMs`, the message sheet): the model keeps only the rows of the survey sheet and the name of the file.
- The directory I/O of `cleanupExports`: each listing is an input. A file whose `stat` fails appears with time 0. The second listing is the per-session survivors, with no other writer in between.
- `Text.ToNumber`: `Number(s)` is modelled for integer literals only: decimal with an optional sign, and unsigned `0x`/`0o`/`0b` literals. Decimal fractions and exponents (`1.5`, `1e3`, `5.`) are read as no number. So `ParseIntStrict` fails, `NumericFields` drops the field and `Excel.Limit` falls back to its default where the source would take such a value. Values that are not integers cannot be held by the model's `int`.
- `Text.ToNumber`: the model's integers are unbounded, while `Number` yields an IEEE-754 double. A decimal numeral of 309 or more digits is `Infinity` there, which `Number.isFinite` rejects: `ParseIntStrict` throws, `NumericFields` drops the field and `ParseRetryAfter` skips the value, where the model reads the number. Integers above 2^53 are rounded there, so `Text.ToNumberOfIntToString` and `Config.ParseCsvIntsRoundTrip` hold in the source only up to 2^53. Telegram chat, user and thread ids fit in 52 bits, so the ids the bot handles are read exactly.
- SQLite failures: every `db.js` statement can throw (a locked or corrupt database, a full disk). The `Store` methods do not fail, except `SetClientTopic` on the unique index. For example, `db.setBotOffset` in `main` (`src/index.js:824`) is outside any `try`, so a throw there ends the process (`src/index.js:862`); the model has no such path.
- The clock: one `now` is given to each handled update. The source reads `Date.now()` at each cache check and write (`src/index.js:172`, `188`, `198`) and at each database write (`src/db.js:199`, `274`, `298`, `333`, `400`). So in the model a cache entry cannot expire in the middle of a handler, and every timestamp a handler writes is the same.
- `LowerAscii`: `toLowerCase` is modelled for ASCII letters only, with no Unicode case mapping.
- `Export.Scheduler.PumpFail`: a `runOnce` that throws ends the pump (the `finally`). A request queued while that run was going on then stays pending until the next `scheduleExport`. The model states the state change and proves nothing further about that case.
- `src/index.js` never calls `scheduleExport`. The queue is modelled from `src/export.js` on its own.
- `Binder.Binder`: the cache is checked against the table only for the client being handled. A cached thread that another process rebinds is not modelled, since there is only one process.
- Reply keyboards (`reply_markup`, `removeKeyboard`, `disable_notification`): no contract depends on them. They are not part of the modelled requests.
- Log payloads: each payload object is reduced to the name of its top-level key (`options`, `question`, `mirror`, `action`). The `mirror` payloads are not modelled in full.
- The texts of the bot, which are in Kazakh with emoji, are ASCII stand-ins. The stand-ins keep the equalities between labels that the source has, and the names of the survey states are exact.
- Startup (`getMe`, `getChat` and its forum check, `deleteWebhook`, `openIndex`, schema migration): the model starts from an open, consistent store.
- The polling loop itself: it runs forever, so one batch is one call of `ProcessBatch`. `getUpdates` is an input.
- HTTP, `fetch`, `FormData` and JSON parsing in `src/telegram.js`: each attempt's outcome is an input of `CallRaw`, and the sleeps are returned, not waited.
- `Bot.Bot.HandleUpdate`: besides the handed-over message, its contract states only the apology after a failed private message. A group message's failure is dropped without a call, which the contract leaves implicit.
- `Bot.Bot.Acknowledge`, `Bot.Bot.PatchAndAcknowledge`, `Bot.Bot.StoreAnswer`: they do not state where the answer card and the mood card sit among the calls, since the topic may be recreated between them; `Bot.Bot.LogAnswer` and `Bot.Bot.TopicSend` state each card as the last call of its own send.
- `Bot.Bot.Reprompt`, `Bot.Bot.RelayAndAsk`: they do not restate that the relayed message is logged; `Bot.Bot.Relay` states it.
- Console logging is left out.
