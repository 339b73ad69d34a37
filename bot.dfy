/**
 * The message handlers of src/index.js: the survey a client goes through in a private
 * chat (`handlePrivateMessage`), the operators' replies in the admin group
 * (`handleGroupMessage`) and the update loop of `main`. Every exception of the
 * source is an `Err` here, which ends the handler at the point where it arose.
 */
module Bot {
  import opened Wrappers
  import opened Text
  import opened Config
  import opened Survey
  import Store
  import opened Transport
  import Binder
  import Excel

  /** The user `sendBotToClient` passes when it mirrors into the topic: only the id is known. */
  const NoUser: User := User("", "", "")

  /** The texts of the handlers, as ASCII stand-ins. */
  const ThanksText: string := "Thank you. You can now start talking to a psychologist."
  const FreeChatNotice: string := "[info] Free chat started. Psychologists write in this topic. /finish to end."
  const FinishedClientText: string := "Thank you. The session is finished."
  const FinishedTopicText: string := "[stop] Session finished."
  const TechErrorText: string := "[warning] Technical error. Please try again later."

  function SessionStarted(sessionId: int): string {
    "[start] Session started. session_id=" + IntToString(sessionId)
  }

  function AutoSessionStarted(sessionId: int): string {
    "[start] Auto-session started. session_id=" + IntToString(sessionId)
  }

  /** `categoryButtons()` / `moodButtons()`: each choice's emoji and label. */
  function Buttons(items: seq<Choice>): (b: seq<string>)
    ensures |b| == |items| && forall i :: 0 <= i < |items| ==> b[i] == ButtonText(items[i])
  {
    seq(|items|, i requires 0 <= i < |items| => ButtonText(items[i]))
  }

  /** The survey card posted into the topic: a heading, the question, a blank line, one bullet per option. */
  function QuestionCard(question: string, options: seq<string>): string {
    Join(["[survey] SURVEY", "? " + question, ""] + seq(|options|, i requires 0 <= i < |options| => "* " + options[i]), '\n')
  }

  /** The card of an answer posted into the topic. */
  function AnswerCard(question: string, answer: string): string {
    "[ok] Answer\n? " + question + "\n[client] " + answer
  }

  /** A client's text relayed into the topic, under the client's label. */
  function ClientCard(who: string, text: string): string {
    "[client] " + who + "\n" + text
  }

  /** A bot message to the client, mirrored into the topic. */
  function MirrorText(text: string): string {
    "? " + text
  }

  /** The list of a mood's three follow-up questions posted into the topic. */
  function MoodCard(moodKey: string): string {
    "[survey] 3 QUESTIONS (in turn)\n1) " + MoodQuestion(moodKey, 0) + "\n2) " + MoodQuestion(moodKey, 1)
      + "\n3) " + MoodQuestion(moodKey, 2)
  }

  /** `m.text && String(m.text).trim() === "/start"`. */
  predicate IsStart(text: string) {
    Trim(text) == "/start"
  }

  /** `x || null` on a message id: a missing or zero id is NULL. */
  function NonZero(v: Option<int>): (r: Option<int>)
    ensures r.Some? <==> v.Some? && v.value != 0
    ensures r.Some? ==> r == v
  {
    if v.Some? && v.value != 0 then v else None
  }

  /** The payload of a logged message, reduced to the name of its one top-level key. */
  function Payload(key: string): Option<string> {
    Some(key)
  }

  /** A bot message to the client, as `sendBotToClient` and the survey questions log it. */
  function BotOut(clientId: int, text: string, sentId: Option<int>, payload: Option<string>): Store.LogData {
    Store.LogData("bot", "out", "text", Some(text), Some(clientId), None, sentId, Some(clientId), None, payload)
  }

  /** A survey answer, as `logSurveyAnswer` logs it. */
  function ClientAnswer(clientId: int, answer: string): Store.LogData {
    Store.LogData("client", "in", "text", Some(answer), Some(clientId), None, None, Some(clientId), None, Payload("question"))
  }

  /** A relayed client message, as `forwardClientMessageToTopic` logs it. */
  function ClientIn(clientId: int, d: Detected, messageId: int): Store.LogData {
    Store.LogData("client", "in", d.kind, Some(d.text), Some(clientId), None, Some(messageId), Some(clientId), None, Payload("mirror"))
  }

  /** An operator's message in the admin group, as the group handler logs it. */
  function OperatorOut(adminGroupId: int, threadId: int, clientId: int, d: Detected, messageId: int,
                       copiedId: Option<int>, payload: Option<string>): Store.LogData {
    Store.LogData("operator", "out", d.kind, Some(d.text), Some(adminGroupId), Some(threadId), Some(messageId),
                  Some(clientId), copiedId, payload)
  }

  /** The answer a survey step stores in its answer column: the chosen label, or the trimmed text. */
  function AnswerText(s: Step, text: string): string
    requires Accepts(s, text) && s != Chat
  {
    match s
    case Category => Categories()[MatchChoice(text, Categories()).value].caption
    case Mood => Moods()[MatchChoice(text, Moods()).value].caption
    case _ => Trim(text)
  }

  /** What the bot sends after an accepted answer: the question and answer it logs, a card for the topic if any, and the next question with its buttons if any. */
  datatype Ack = Ack(question: string, answer: string, card: Option<string>, next: string, options: Option<seq<Choice>>)

  /**
   * The acknowledgement of an accepted CATEGORY, NAME or MOOD answer: the chosen
   * button's text (or the trimmed name) is logged against its question, a mood's
   * three questions are listed in the topic, and the next question follows, with
   * the mood buttons after the name.
   */
  function Acknowledgement(step: Step, text: string): Ack
    requires Accepts(step, text) && step in {Category, Name, Mood}
  {
    match step
    case Category => Ack(SurveyQCategory, ButtonText(Categories()[MatchChoice(text, Categories()).value]), None, SurveyQName, None)
    case Name => Ack(SurveyQNameShort, Trim(text), None, SurveyQMood, Some(Moods()))
    case Mood =>
      var c := Moods()[MatchChoice(text, Moods()).value];
      Ack(SurveyQMood, ButtonText(c), Some(MoodCard(c.key)), MoodQuestion(c.key, 0), None)
  }

  /**
   * What handling one message in the active session `sid` (in state `step`) did to the
   * sessions table: only that row changes, it stays the client's and keeps its
   * activity; a text the step does not accept changes nothing; a handled message
   * leaves the row in the step that follows and stores the answer; a failure leaves
   * the state where it was, except after the third mood question: there a failure
   * either left the table as it was (the answer's log row failed) or came from one
   * of the closing sends, after the answer was stored and CHAT recorded.
   */
  ghost predicate Answered(before: seq<Store.SessionRow>, after: seq<Store.SessionRow>, sid: int,
                           step: Step, text: string, ok: bool)
  {
    && 1 <= sid <= |before| == |after|
    && after == before[sid - 1 := after[sid - 1]]
    && after[sid - 1].clientId == before[sid - 1].clientId
    && Store.Active(after[sid - 1]) == Store.Active(before[sid - 1])
    && (!Accepts(step, text) ==> after == before)
    && (ok ==> Store.StateOf(after[sid - 1]) == StepName(After(step, text)))
    && (ok && Accepts(step, text) && step != Chat ==>
          Store.Col(after[sid - 1].cols, Excel.AnswerColumn(step)) == Store.Str(AnswerText(step, text)))
    && (!ok && step != MoodQ3 ==> Store.StateOf(after[sid - 1]) == Store.StateOf(before[sid - 1]))
    && (!ok && step == MoodQ3 ==>
          || after == before
          || (&& Store.StateOf(after[sid - 1]) == "CHAT"
              && Store.Col(after[sid - 1].cols, Excel.AnswerColumn(step)) == Store.Str(AnswerText(step, text))))
  }

  /** Handling a message in session `sid`: it answered the step the row was in, or, in an unknown state, left the table as it was. */
  ghost predicate AnsweredInState(before: seq<Store.SessionRow>, after: seq<Store.SessionRow>, sid: int, text: string, ok: bool) {
    && 1 <= sid <= |before|
    && match ParseStep(Store.StateOf(before[sid - 1]))
       case Some(step) => Answered(before, after, sid, step, text, ok)
       case None => after == before
  }

  /** An accepted answer is what the survey sheet exports for its step. */
  lemma AnsweredExports(before: seq<Store.SessionRow>, after: seq<Store.SessionRow>, sid: int, k: nat, text: string)
    requires k < |SurveySteps| && Accepts(SurveySteps[k], text)
    requires Answered(before, after, sid, SurveySteps[k], text, true)
    ensures Excel.BuildSurveyRows(Some(after[sid - 1].cols))[k].answer == AnswerText(SurveySteps[k], text)
    ensures Excel.BuildSurveyRows(Some(after[sid - 1].cols))[k].step == StepName(SurveySteps[k])
  {
    var cols := after[sid - 1].cols;
    Excel.SurveyRowsNamed(Some(cols));
    Excel.SurveyRowsHoldAnswers(Some(cols));
    assert Excel.AnswerColumn(SurveySteps[k]) in cols;
  }

  /** The rows after `updateSession` patched row `sid`. */
  function WithPatch(rows: seq<Store.SessionRow>, sid: int, patch: map<string, Store.Cell>, now: int): (r: seq<Store.SessionRow>)
    requires 1 <= sid <= |rows|
    ensures |r| == |rows|
  {
    rows[sid - 1 := Store.SessionRow(rows[sid - 1].clientId, Store.Patched(rows[sid - 1].cols, patch, now))]
  }

  /**
   * Patching touches row `sid` only, keeps its client, sets each allow-listed column the
   * patch holds to the patch's value and `updated_at_ms` to `now`, and leaves every other
   * column as it was.
   */
  lemma WithPatchCells(rows: seq<Store.SessionRow>, sid: int, patch: map<string, Store.Cell>, now: int)
    requires 1 <= sid <= |rows|
    ensures forall j :: 0 <= j < |rows| && j != sid - 1 ==> WithPatch(rows, sid, patch, now)[j] == rows[j]
    ensures WithPatch(rows, sid, patch, now)[sid - 1].clientId == rows[sid - 1].clientId
    ensures Store.Col(WithPatch(rows, sid, patch, now)[sid - 1].cols, "updated_at_ms") == Store.Num(now)
    ensures forall k :: k != "updated_at_ms" ==>
      Store.Col(WithPatch(rows, sid, patch, now)[sid - 1].cols, k)
        == if k in patch && k in Store.Allowed then patch[k] else Store.Col(rows[sid - 1].cols, k)
  {
  }

  /** The rows after `setSessionState` moved row `sid` to `state`. */
  function WithState(rows: seq<Store.SessionRow>, sid: int, state: string, now: int): (r: seq<Store.SessionRow>)
    requires 1 <= sid <= |rows|
    ensures |r| == |rows|
  {
    rows[sid - 1 := Store.SessionRow(rows[sid - 1].clientId, rows[sid - 1].cols["state" := Store.Str(state)]["updated_at_ms" := Store.Num(now)])]
  }

  /** A state change touches row `sid` only: its state becomes `state`, `updated_at_ms` becomes `now`, and nothing else changes. */
  lemma WithStateCells(rows: seq<Store.SessionRow>, sid: int, state: string, now: int)
    requires 1 <= sid <= |rows|
    ensures forall j :: 0 <= j < |rows| && j != sid - 1 ==> WithState(rows, sid, state, now)[j] == rows[j]
    ensures WithState(rows, sid, state, now)[sid - 1].clientId == rows[sid - 1].clientId
    ensures Store.StateOf(WithState(rows, sid, state, now)[sid - 1]) == state
    ensures Store.Col(WithState(rows, sid, state, now)[sid - 1].cols, "updated_at_ms") == Store.Num(now)
    ensures forall k {:trigger Store.Col(rows[sid - 1].cols, k)} :: k != "state" && k != "updated_at_ms" ==>
      Store.Col(WithState(rows, sid, state, now)[sid - 1].cols, k) == Store.Col(rows[sid - 1].cols, k)
  {
  }

  /** A message that leaves the table as it was answers nothing: it fails, or it was not accepted in the step the row is in. */
  lemma Unanswered(rows: seq<Store.SessionRow>, sid: int, step: Step, text: string, ok: bool)
    requires 1 <= sid <= |rows| && Store.StateOf(rows[sid - 1]) == StepName(step)
    requires ok ==> !Accepts(step, text)
    ensures Answered(rows, rows, sid, step, text, ok)
  {
  }

  /** The answer column of a step is one `updateSession` may set, and neither the state nor the activity flag. */
  lemma AnswerColumnAllowed(step: Step)
    requires step != Chat
    ensures Excel.AnswerColumn(step) in Store.Allowed
    ensures Excel.AnswerColumn(step) != "state" && Excel.AnswerColumn(step) != "is_active" && Excel.AnswerColumn(step) != "updated_at_ms"
  {
  }

  /**
   * The columns `updateSession` receives for an accepted answer: the chosen
   * category's or mood's key and label, the trimmed name, or the trimmed answer
   * to a mood question.
   */
  function AnswerPatch(step: Step, text: string): map<string, Store.Cell>
    requires Accepts(step, text) && step != Chat
  {
    match step
    case Category =>
      var c := Categories()[MatchChoice(text, Categories()).value];
      map["category_key" := Store.Str(c.key), "category_label" := Store.Str(c.caption)]
    case Mood =>
      var c := Moods()[MatchChoice(text, Moods()).value];
      map["mood_key" := Store.Str(c.key), "mood_label" := Store.Str(c.caption)]
    case _ => map[Excel.AnswerColumn(step) := Store.Str(Trim(text))]
  }

  /** The patch of an accepted answer stores the answer in the step's column. */
  lemma AnswerPatchStores(step: Step, text: string)
    requires Accepts(step, text) && step != Chat
    ensures Excel.AnswerColumn(step) in AnswerPatch(step, text)
    ensures AnswerPatch(step, text)[Excel.AnswerColumn(step)] == Store.Str(AnswerText(step, text))
  {
  }

  /** The patch of an accepted answer touches neither the state nor the activity flag. */
  lemma AnswerPatchKeepsState(step: Step, text: string)
    requires Accepts(step, text) && step != Chat
    ensures "state" !in AnswerPatch(step, text) && "is_active" !in AnswerPatch(step, text)
  {
  }

  /** An accepted mood stores its key. */
  lemma AnswerPatchMoodKey(text: string)
    requires Accepts(Mood, text)
    ensures AnswerPatch(Mood, text)["mood_key"] == Store.Str(Moods()[MatchChoice(text, Moods()).value].key)
  {
  }

  /** Storing an accepted answer leaves the row's state and activity as they were, so a failure right after it answers nothing yet. */
  lemma AnswerPatched(rows: seq<Store.SessionRow>, sid: int, step: Step, text: string, now: int)
    requires 1 <= sid <= |rows| && Accepts(step, text) && step != Chat && step != MoodQ3
    requires Store.StateOf(rows[sid - 1]) == StepName(step)
    ensures Answered(rows, WithPatch(rows, sid, AnswerPatch(step, text), now), sid, step, text, false)
  {
    var cols := rows[sid - 1].cols;
    var patch := AnswerPatch(step, text);
    AnswerPatchKeepsState(step, text);
    Store.PatchedColumns(cols, patch, now, "state");
    Store.PatchedColumns(cols, patch, now, "is_active");
  }

  /**
   * Storing an accepted answer and then setting the row's state completes the
   * answer when the state is the next step's; after the third mood question, CHAT
   * recorded before a failing send still leaves an answered row.
   */
  lemma AnswerStored(rows: seq<Store.SessionRow>, sid: int, step: Step, text: string, now: int, ok: bool)
    requires 1 <= sid <= |rows| && Accepts(step, text) && step != Chat
    requires ok || step == MoodQ3
    ensures Answered(rows, WithState(WithPatch(rows, sid, AnswerPatch(step, text), now), sid, StepName(Next(step)), now), sid, step, text, ok)
  {
    var column := Excel.AnswerColumn(step);
    var cols := rows[sid - 1].cols;
    var patch := AnswerPatch(step, text);
    var state := StepName(Next(step));
    var patched := Store.Patched(cols, patch, now);
    var c := patched["state" := Store.Str(state)]["updated_at_ms" := Store.Num(now)];
    AnswerColumnAllowed(step);
    AnswerPatchStores(step, text);
    AnswerPatchKeepsState(step, text);
    Store.PatchedColumns(cols, patch, now, column);
    Store.PatchedColumns(cols, patch, now, "is_active");
    assert Store.Col(c, "state") == Store.Str(state);
    assert Store.Col(c, column) == Store.Str(AnswerText(step, text));
    assert Store.Col(c, "is_active") == Store.Col(cols, "is_active");
    assert After(step, text) == Next(step);
    assert step == MoodQ3 ==> state == "CHAT";
  }

  /** Storing an accepted mood and moving on keeps the mood's key in the row, where the mood questions read it. */
  lemma MoodKeyStored(rows: seq<Store.SessionRow>, sid: int, text: string, now: int)
    requires 1 <= sid <= |rows| && Accepts(Mood, text)
    ensures Store.Col(WithState(WithPatch(rows, sid, AnswerPatch(Mood, text), now), sid, StepName(MoodQ1), now)[sid - 1].cols, "mood_key")
      == Store.Str(Moods()[MatchChoice(text, Moods()).value].key)
  {
    var patch := AnswerPatch(Mood, text);
    AnswerPatchMoodKey(text);
    Store.PatchedColumns(rows[sid - 1].cols, patch, now, "mood_key");
  }

  /** A new session was opened for the client: the earlier rows closed as `startSession` does, the new one its latest active row. */
  ghost predicate Opened(before: seq<Store.SessionRow>, after: seq<Store.SessionRow>, clientId: int, now: int) {
    && |after| == |before| + 1
    && after[..|before|] == Store.Deactivate(before, clientId, now)
    && after[|before|].clientId == clientId
    && Store.LatestActive(after, clientId) == Some(|before|)
  }

  /** A new session was opened for the client and is now in `state`. */
  ghost predicate Began(before: seq<Store.SessionRow>, after: seq<Store.SessionRow>, clientId: int, now: int, state: string) {
    Opened(before, after, clientId, now) && Store.StateOf(after[|before|]) == state
  }

  /** A message as the handlers read it (the fields of a Telegram `Message` they use). */
  datatype Message = Message(chatType: string, chatId: int, threadId: Option<int>, fromId: Option<int>,
                             user: User, content: Content, messageId: int)

  /** An update: its id and, for message updates, the message. */
  datatype Update = Update(updateId: int, message: Option<Message>)

  /** A message a handler takes: a private message, or one of the admin supergroup. */
  predicate Handles(m: Message, adminGroupId: int) {
    m.chatType == "private" || (m.chatType == "supergroup" && m.chatId == adminGroupId)
  }

  /** The update goes to a handler: it carries a message a handler takes. */
  predicate Routes(u: Update, adminGroupId: int) {
    u.message.Some? && Handles(u.message.value, adminGroupId)
  }

  /** The messages of a batch handed to a handler, in order. */
  function Dispatched(updates: seq<Update>, adminGroupId: int): (ms: seq<Message>)
    ensures forall k :: 0 <= k < |ms| ==> Handles(ms[k], adminGroupId)
    decreases |updates|
  {
    if updates == [] then []
    else
      var init, last := updates[..|updates| - 1], updates[|updates| - 1];
      Dispatched(init, adminGroupId) + (if Routes(last, adminGroupId) then [last.message.value] else [])
  }

  /** Dispatching one more update of a batch adds its message when it is routed. */
  lemma DispatchedNext(updates: seq<Update>, i: nat, adminGroupId: int)
    requires i < |updates|
    ensures Dispatched(updates[..i + 1], adminGroupId)
      == Dispatched(updates[..i], adminGroupId) + (if Routes(updates[i], adminGroupId) then [updates[i].message.value] else [])
  {
    assert updates[..i + 1][..i] == updates[..i];
  }

  /** A message is dispatched exactly when some routed update of the batch carries it. */
  lemma {:induction false} DispatchedRouted(updates: seq<Update>, adminGroupId: int)
    ensures forall m :: m in Dispatched(updates, adminGroupId) <==>
      exists i :: 0 <= i < |updates| && updates[i].message == Some(m) && Routes(updates[i], adminGroupId)
    decreases |updates|
  {
    if updates != [] {
      var init := updates[..|updates| - 1];
      DispatchedRouted(init, adminGroupId);
      forall m | m in Dispatched(updates, adminGroupId)
        ensures exists i :: 0 <= i < |updates| && updates[i].message == Some(m) && Routes(updates[i], adminGroupId)
      {
        if m in Dispatched(init, adminGroupId) {
          var i :| 0 <= i < |init| && init[i].message == Some(m) && Routes(init[i], adminGroupId);
          assert updates[i] == init[i];
        } else {
          assert updates[|updates| - 1].message == Some(m) && Routes(updates[|updates| - 1], adminGroupId);
        }
      }
      forall m | exists i :: 0 <= i < |updates| && updates[i].message == Some(m) && Routes(updates[i], adminGroupId)
        ensures m in Dispatched(updates, adminGroupId)
      {
        var i :| 0 <= i < |updates| && updates[i].message == Some(m) && Routes(updates[i], adminGroupId);
        if i < |init| {
          assert init[i] == updates[i];
        }
      }
    }
  }

  /** Every routed update reaches a handler, whatever earlier handlers did. */
  lemma {:induction false} DispatchedAll(updates: seq<Update>, adminGroupId: int)
    requires forall i :: 0 <= i < |updates| ==> Routes(updates[i], adminGroupId)
    ensures Dispatched(updates, adminGroupId) == seq(|updates|, i requires 0 <= i < |updates| && Routes(updates[i], adminGroupId) => updates[i].message.value)
    decreases |updates|
  {
    if updates != [] {
      DispatchedAll(updates[..|updates| - 1], adminGroupId);
    }
  }

  /** The group message is addressed to the bot: the admin group, a topic other than General, an operator. */
  predicate Addressed(m: Message, adminGroupId: int, operatorIds: seq<int>) {
    m.chatId == adminGroupId && m.threadId.Some? && m.threadId.value > 1 && m.fromId.Some? && m.fromId.value in operatorIds
  }

  /**
   * What an operator's message in client `clientId`'s topic does to the sessions
   * table: with no active session one is opened (the earlier rows closed as
   * `startSession` does); "/finish" then closes the client's session, and anything
   * else leaves the table as it was.
   */
  ghost predicate OperatorSession(before: seq<Store.SessionRow>, after: seq<Store.SessionRow>, clientId: int, now: int,
                                  finish: bool, ok: bool) {
    var latest := Store.LatestActive(before, clientId);
    var sid := if latest.Some? then latest.value + 1 else |before| + 1;
    && (latest.None? ==> |after| == |before| + 1 && after[..|before|] == Store.Deactivate(before, clientId, now))
    && (latest.Some? ==> |after| == |before|)
    && 1 <= sid <= |after| && after[sid - 1].clientId == clientId
    && (!finish && latest.None? ==> Opened(before, after, clientId, now))
    && (!finish && latest.Some? ==> after == before)
    && (finish && (latest.Some? || ok) ==> !Store.Active(after[sid - 1]))
    && (finish && latest.Some? ==> after == before[sid - 1 := after[sid - 1]])
  }

  /** The calls that end an operator's handled message: the copy to the client, or the two "/finish" notices. */
  predicate OperatorSent(log: seq<Request>, clientId: int, adminGroupId: int, m: Message, finish: bool, ok: bool) {
    && (ok && !finish ==>
          |log| > 0 && log[|log| - 1] == CopyMessage(clientId, adminGroupId, m.messageId))
    && (ok && finish ==>
          && |log| >= 2 && log[|log| - 2] == SendMessage(clientId, None, FinishedClientText)
          && log[|log| - 1] == SendMessage(adminGroupId, m.threadId, FinishedTopicText))
  }

  /** Where `main` starts reading: a stored offset that is not negative, else 0; with none stored, after the last pending update. */
  function ResumeOffset(saved: Option<int>, pending: seq<int>): (offset: int)
    ensures saved.Some? && saved.value >= 0 ==> offset == saved.value
    ensures saved.Some? && saved.value < 0 ==> offset == 0
    ensures saved.None? && pending != [] ==> offset == pending[|pending| - 1] + 1
    ensures saved.None? && pending == [] ==> offset == 0
  {
    match saved
    case Some(n) => if n >= 0 then n else 0
    case None => if pending == [] then 0 else pending[|pending| - 1] + 1
  }

  /** With no offset saved, reading resumes past every pending update, whose ids Telegram hands out in increasing order. */
  lemma ResumeSkipsPending(pending: seq<int>)
    requires forall i, j :: 0 <= i < j < |pending| ==> pending[i] < pending[j]
    ensures forall i :: 0 <= i < |pending| ==> pending[i] < ResumeOffset(None, pending)
  {
  }

  /** The call that relays a client's message into thread `threadId`: a card naming the client for a text, a forward otherwise. */
  function RelayRequest(adminGroupId: int, clientId: int, user: User, m: Content, messageId: int, threadId: int): Request {
    if m.text != "" then SendMessage(adminGroupId, Some(threadId), ClientCard(SafeUserLabel(user, clientId), m.text))
    else ForwardMessage(adminGroupId, clientId, messageId, threadId)
  }

  /**
   * The calls from index `from` on ask `question` again: with choices, the card
   * with its buttons into thread `threadId` and then the question to the client;
   * without, the question to the client first and its mirror into the thread last.
   */
  predicate Asked(log: seq<Request>, from: nat, adminGroupId: int, clientId: int, threadId: int,
                  question: string, options: Option<seq<Choice>>)
  {
    match options
    case Some(choices) =>
      && from + 2 <= |log|
      && log[|log| - 2] == SendMessage(adminGroupId, Some(threadId), QuestionCard(question, Buttons(choices)))
      && log[|log| - 1] == SendMessage(clientId, None, question)
    case None =>
      && from < |log|
      && log[from] == SendMessage(clientId, None, question)
      && log[|log| - 1] == SendMessage(adminGroupId, Some(threadId), MirrorText(question))
  }

  /** A call made before stays where it was as later calls are appended. */
  lemma PrefixAt(before: seq<Request>, after: seq<Request>, i: nat, r: Request)
    requires before <= after && i < |before| && before[i] == r
    ensures after[i] == r
  {
  }

  class Bot {
    const binder: Binder.Binder
    const store: Store.Store
    const tg: Client
    const operatorIds: seq<int>
    const sendExcel: bool
    /** The messages handed to a handler so far, in order. */
    ghost var served: seq<Message>

    ghost predicate Valid()
      reads binder`cache, store`topics, store`threadIndex
    {
      binder.store == store && binder.tg == tg && binder.Valid()
    }

    constructor (binder: Binder.Binder, operatorIds: seq<int>, sendExcel: bool)
      requires binder.Valid()
      ensures Valid()
      ensures this.binder == binder && this.operatorIds == operatorIds && this.sendExcel == sendExcel
      ensures served == []
    {
      served := [];
      this.binder := binder;
      this.store := binder.store;
      this.tg := binder.tg;
      this.operatorIds := operatorIds;
      this.sendExcel := sendExcel;
    }

    /** `tg.sendMessage` to a private chat. */
    method SendToClient(chatId: int, text: string) returns (res: Result<Option<int>, string>)
      modifies tg`log
      ensures old(tg.log) <= tg.log
      ensures tg.log == old(tg.log) + [SendMessage(chatId, None, text)]
      ensures res.Err? <==> tg.answer(|old(tg.log)|).Raised?
      ensures res.Ok? ==> res.value == NonZero(tg.answer(|old(tg.log)|).messageId)
    {
      var reply := tg.Call(SendMessage(chatId, None, text));
      if reply.Raised? {
        return Err(reply.message);
      }
      return Ok(NonZero(reply.messageId));
    }

    /** A strict send into the client's topic (`sendToClientTopic`), seen from the handlers: on success the text is the last call, in the client's thread. */
    method TopicSend(clientId: int, user: User, text: string, now: int) returns (res: Result<Binder.Sent, string>)
      requires Valid()
      modifies binder`cache, store`topics, store`threadIndex, tg`log
      ensures old(tg.log) <= tg.log
      ensures Valid()
      ensures res.Ok? ==> clientId in store.topics && res.value.threadId == store.topics[clientId].threadId
      ensures res.Ok? ==> |tg.log| > |old(tg.log)| && tg.log[|tg.log| - 1] == SendMessage(binder.adminGroupId, Some(res.value.threadId), text)
    {
      res := binder.SendToClientTopic(clientId, user, text, now);
    }

    /** The client's topic (`ensureClientTopic`), seen from the handlers: a positive thread the store binds the client to. */
    method TopicOf(clientId: int, user: User, now: int) returns (res: Result<int, string>)
      requires Valid()
      modifies binder`cache, store`topics, store`threadIndex, tg`log
      ensures Valid()
      ensures res.Ok? ==> res.value > 0 && clientId in store.topics && store.topics[clientId].threadId == res.value
    {
      res := binder.EnsureClientTopic(clientId, user, now);
    }

    /** A verified forward into the client's topic, seen from the handlers: on success the forward is the last call. */
    method TopicForward(clientId: int, user: User, messageId: int, now: int) returns (res: Result<Binder.Sent, string>)
      requires Valid()
      modifies binder`cache, store`topics, store`threadIndex, tg`log
      ensures old(tg.log) <= tg.log
      ensures Valid()
      ensures res.Ok? ==> clientId in store.topics && res.value.threadId == store.topics[clientId].threadId
      ensures res.Ok? ==> |tg.log| > |old(tg.log)| && tg.log[|tg.log| - 1] == ForwardMessage(binder.adminGroupId, clientId, messageId, res.value.threadId)
    {
      res := binder.ForwardToClientTopic(clientId, user, messageId, now);
    }

    /** The survey spreadsheet sent into a thread, seen from the handlers. */
    method SurveyExcel(sendExcel: bool, clientId: int, user: User, threadId: int, sid: int, now: int)
      returns (res: Result<Option<Binder.Sent>, string>)
      requires Valid()
      modifies binder`cache, store`topics, store`threadIndex, tg`log
      ensures Valid()
      ensures res == Ok(None) <==> !sendExcel
      ensures !sendExcel ==> tg.log == old(tg.log)
      ensures res.Ok? && res.value.Some? ==>
        && |tg.log| > 0
        && tg.log[|tg.log| - 1] == SendDocument(binder.adminGroupId, res.value.value.threadId, Binder.SurveyFileName(clientId, sid))
        && Binder.Routed(tg.answer(|tg.log| - 1), res.value.value.threadId)
      ensures sendExcel && threadId > 0 && Binder.Routed(tg.answer(|old(tg.log)|), threadId) ==>
        && res == Ok(Some(Binder.Sent(threadId, tg.answer(|old(tg.log)|).messageId)))
        && tg.log == old(tg.log) + [SendDocument(binder.adminGroupId, threadId, Binder.SurveyFileName(clientId, sid))]
    {
      res := binder.SendSurveyExcel(sendExcel, clientId, user, threadId, sid, now);
    }

    /** `sendBotToClient` (always mirrored): the text goes to the client, is logged, and is mirrored into the topic. */
    method SendBotToClient(clientId: int, sid: int, text: string, now: int) returns (res: Result<(), string>)
      requires Valid()
      modifies binder`cache, store`topics, store`threadIndex, store`messages, tg`log
      ensures old(tg.log) <= tg.log
      ensures Valid()
      ensures tg.answer(|old(tg.log)|).Delivered? ==>
        store.messages == old(store.messages)
          + Store.Logged(store.messageColumns, clientId, Some(sid), BotOut(clientId, text, NonZero(tg.answer(|old(tg.log)|).messageId), None), now)
      ensures |tg.log| > |old(tg.log)| && tg.log[|old(tg.log)|] == SendMessage(clientId, None, text)
      ensures res.Ok? ==> tg.answer(|old(tg.log)|).Delivered? && clientId in store.topics && |tg.log| > |old(tg.log)| && tg.log[|tg.log| - 1] == SendMessage(binder.adminGroupId, Some(store.topics[clientId].threadId), MirrorText(text))
    {
      var sent := SendToClient(clientId, text);
      if sent.Err? {
        return Err(sent.error);
      }
      store.LogMessage(clientId, Some(sid), BotOut(clientId, text, sent.value, None), now);
      var mirrored := TopicSend(clientId, NoUser, MirrorText(text), now);
      if mirrored.Err? {
        return Err(mirrored.error);
      }
      return Ok(());
    }

    /** `sendSurveyQuestionWithOptions`: the survey card into the topic, then the question to the client, then its log row. */
    method AskWithOptions(clientId: int, sid: int, question: string, choices: seq<Choice>, user: User, now: int)
      returns (res: Result<(), string>)
      requires Valid()
      modifies binder`cache, store`topics, store`threadIndex, store`messages, tg`log
      ensures old(tg.log) <= tg.log
      ensures Valid()
      ensures res.Ok? ==> |tg.log| > |old(tg.log)| && tg.log[|tg.log| - 1] == SendMessage(clientId, None, question)
      ensures res.Ok? ==>
        && clientId in store.topics && |tg.log| >= |old(tg.log)| + 2
        && tg.log[|tg.log| - 2] == SendMessage(binder.adminGroupId, Some(store.topics[clientId].threadId), QuestionCard(question, Buttons(choices)))
      ensures res.Ok? ==>
        && tg.answer(|tg.log| - 1).Delivered?
        && store.messages == old(store.messages)
          + Store.Logged(store.messageColumns, clientId, Some(sid),
                         BotOut(clientId, question, NonZero(tg.answer(|tg.log| - 1).messageId), Payload("options")), now)
      ensures res.Err? ==> store.messages == old(store.messages)
    {
      var card := TopicSend(clientId, user, QuestionCard(question, Buttons(choices)), now);
      if card.Err? {
        return Err(card.error);
      }
      var sent := SendToClient(clientId, question);
      if sent.Err? {
        return Err(sent.error);
      }
      ghost var l, tp := tg.log, store.topics;
      store.LogMessage(clientId, Some(sid), BotOut(clientId, question, sent.value, Payload("options")), now);
      assert tg.log == l;
      assert store.topics == tp;
      return Ok(());
    }

    /** `logSurveyAnswer`: the answer card into the topic, then the answer's log row. */
    method LogAnswer(clientId: int, sid: int, user: User, question: string, answer: string, now: int)
      returns (res: Result<(), string>)
      requires Valid()
      modifies binder`cache, store`topics, store`threadIndex, store`messages, tg`log
      ensures Valid()
      ensures old(tg.log) <= tg.log
      ensures res.Ok? ==> store.messages == old(store.messages) + Store.Logged(store.messageColumns, clientId, Some(sid), ClientAnswer(clientId, answer), now)
      ensures res.Ok? ==> clientId in store.topics && |tg.log| > |old(tg.log)| && tg.log[|tg.log| - 1] == SendMessage(binder.adminGroupId, Some(store.topics[clientId].threadId), AnswerCard(question, answer))
      ensures res.Err? ==> store.messages == old(store.messages)
    {
      var card := TopicSend(clientId, user, AnswerCard(question, answer), now);
      if card.Err? {
        return Err(card.error);
      }
      ghost var l, tp := tg.log, store.topics;
      store.LogMessage(clientId, Some(sid), ClientAnswer(clientId, answer), now);
      assert tg.log == l;
      assert store.topics == tp;
      res := Ok(());
    }

    /**
     * `forwardClientMessageToTopic`: a text is relayed as a card under the client's
     * label, anything else is forwarded; then the message is logged.
     */
    method Relay(clientId: int, sid: int, user: User, m: Content, messageId: int, now: int)
      returns (res: Result<(), string>, ghost at: nat, ghost thread: int)
      requires Valid()
      modifies binder`cache, store`topics, store`threadIndex, store`messages, tg`log
      ensures old(tg.log) <= tg.log
      ensures Valid()
      ensures res.Ok? ==>
        store.messages == old(store.messages)
          + Store.Logged(store.messageColumns, clientId, Some(sid), ClientIn(clientId, DetectMsgType(m), messageId), now)
      ensures res.Ok? ==>
        && clientId in store.topics && |old(tg.log)| <= at && at + 1 == |tg.log| && thread == store.topics[clientId].threadId
        && tg.log[at] == RelayRequest(binder.adminGroupId, clientId, user, m, messageId, thread)
      ensures res.Err? ==> store.messages == old(store.messages)
    {
      res, at, thread := RelayToTopic(clientId, user, m, messageId, now);
      if res.Err? {
        return;
      }
      ghost var l, tp := tg.log, store.topics;
      store.LogMessage(clientId, Some(sid), ClientIn(clientId, DetectMsgType(m), messageId), now);
      assert tg.log == l;
      assert store.topics == tp;
    }

    /** The relaying half of `forwardClientMessageToTopic`: a text becomes a card in the client's topic, anything else is forwarded there. */
    method RelayToTopic(clientId: int, user: User, m: Content, messageId: int, now: int)
      returns (res: Result<(), string>, ghost at: nat, ghost thread: int)
      requires Valid()
      modifies binder`cache, store`topics, store`threadIndex, tg`log
      ensures old(tg.log) <= tg.log
      ensures Valid()
      ensures res.Ok? ==>
        && clientId in store.topics && |old(tg.log)| <= at && at + 1 == |tg.log| && thread == store.topics[clientId].threadId
        && tg.log[at] == RelayRequest(binder.adminGroupId, clientId, user, m, messageId, thread)
    {
      var d := DetectMsgType(m);
      if d.kind == "text" {
        res := RelayCard(clientId, user, d.text, now);
      } else {
        res := RelayForward(clientId, user, messageId, now);
      }
      at, thread := if res.Ok? then |tg.log| - 1 else 0, if res.Ok? then store.topics[clientId].threadId else 0;
    }

    /** A text from the client, posted into the client's topic as a card naming the client. */
    method RelayCard(clientId: int, user: User, text: string, now: int) returns (res: Result<(), string>)
      requires Valid()
      modifies binder`cache, store`topics, store`threadIndex, tg`log
      ensures old(tg.log) <= tg.log
      ensures Valid()
      ensures res.Ok? ==>
        && clientId in store.topics && |tg.log| > |old(tg.log)|
        && tg.log[|tg.log| - 1] == SendMessage(binder.adminGroupId, Some(store.topics[clientId].threadId), ClientCard(SafeUserLabel(user, clientId), text))
    {
      var card := TopicSend(clientId, user, ClientCard(SafeUserLabel(user, clientId), text), now);
      if card.Err? {
        return Err(card.error);
      }
      return Ok(());
    }

    /** Anything else from the client, forwarded into the client's topic. */
    method RelayForward(clientId: int, user: User, messageId: int, now: int) returns (res: Result<(), string>)
      requires Valid()
      modifies binder`cache, store`topics, store`threadIndex, tg`log
      ensures old(tg.log) <= tg.log
      ensures Valid()
      ensures res.Ok? ==>
        && clientId in store.topics && |tg.log| > |old(tg.log)|
        && tg.log[|tg.log| - 1] == ForwardMessage(binder.adminGroupId, clientId, messageId, store.topics[clientId].threadId)
    {
      var fwd := TopicForward(clientId, user, messageId, now);
      if fwd.Err? {
        return Err(fwd.error);
      }
      return Ok(());
    }

    /**
     * The messages that open a session: the announcement into the topic, the bot's
     * description to the client, and the category question. On success the
     * question is the last call, addressed to the client.
     */
    method Introduce(clientId: int, sid: int, user: User, now: int) returns (res: Result<(), string>)
      requires Valid()
      modifies binder`cache, store`topics, store`threadIndex, store`messages, tg`log
      ensures Valid()
      ensures res.Ok? ==> |tg.log| > 0 && tg.log[|tg.log| - 1] == SendMessage(clientId, None, SurveyQCategory)
    {
      var started := TopicSend(clientId, user, SessionStarted(sid), now);
      if started.Err? {
        return Err(started.error);
      }
      var described := SendBotToClient(clientId, sid, BotDescription, now);
      if described.Err? {
        return Err(described.error);
      }
      res := Ask(clientId, sid, user, SurveyQCategory, Some(Categories()), now);
    }

    /**
     * `startNewSessionFlow`: makes sure the client has a topic, opens a new session,
     * announces it, sends the bot's description and the category question, and
     * records the CATEGORY state. A failure once the session is open leaves it open.
     */
    method StartNewSessionFlow(clientId: int, user: User, now: int) returns (res: Result<int, string>)
      requires Valid()
      modifies binder`cache, store`topics, store`threadIndex, store`sessions, store`messages, tg`log
      ensures Valid()
      ensures store.sessions == old(store.sessions) || Began(old(store.sessions), store.sessions, clientId, now, "CATEGORY")
      ensures res.Ok? ==> Began(old(store.sessions), store.sessions, clientId, now, "CATEGORY") && res.value == |store.sessions|
    {
      var topic := TopicOf(clientId, user, now);
      if topic.Err? {
        return Err(topic.error);
      }
      var sid := store.StartSession(clientId, now);
      Store.StartSessionLeavesOneActive(old(store.sessions), clientId, now);
      var introduced := Introduce(clientId, sid, user, now);
      if introduced.Err? {
        return Err(introduced.error);
      }
      ghost var mid := store.sessions;
      store.SetSessionState(clientId, sid, "CATEGORY", now);
      assert store.sessions[..|old(store.sessions)|] == mid[..|old(store.sessions)|];
      assert Store.Active(store.sessions[sid - 1]);
      return Ok(sid);
    }

    /**
     * The reply to a text a step does not accept: the message is relayed into the
     * topic (call `at`, into the thread then bound) and logged, and the step's
     * question is asked again from call `asked` on; the session row is untouched.
     */
    method Reprompt(clientId: int, sid: int, user: User, step: Step, m: Content, messageId: int,
                    question: string, options: Option<seq<Choice>>, now: int)
      returns (res: Result<(), string>, ghost at: nat, ghost asked: nat, ghost thread: int)
      requires Valid() && 1 <= sid <= |store.sessions| && Store.StateOf(store.sessions[sid - 1]) == StepName(step)
      requires !Accepts(step, m.text)
      modifies binder`cache, store`topics, store`threadIndex, store`messages, tg`log
      ensures Valid()
      ensures Answered(old(store.sessions), store.sessions, sid, step, m.text, res.Ok?)
      ensures res.Ok? ==> |old(tg.log)| <= at < asked <= |tg.log| && tg.log[at] == RelayRequest(binder.adminGroupId, clientId, user, m, messageId, thread)
      ensures res.Ok? ==> clientId in store.topics && Asked(tg.log, asked, binder.adminGroupId, clientId, store.topics[clientId].threadId, question, options)
    {
      res, at, asked, thread := RelayAndAsk(clientId, sid, user, m, messageId, question, options, now);
      Unanswered(store.sessions, sid, step, m.text, res.Ok?);
    }

    /** The message goes to the topic (call `at`, into thread `thread`) and is logged, then the question is asked again from call `asked` on. */
    method RelayAndAsk(clientId: int, sid: int, user: User, m: Content, messageId: int,
                       question: string, options: Option<seq<Choice>>, now: int)
      returns (res: Result<(), string>, ghost at: nat, ghost asked: nat, ghost thread: int)
      requires Valid()
      modifies binder`cache, store`topics, store`threadIndex, store`messages, tg`log
      ensures Valid()
      ensures res.Ok? ==> |old(tg.log)| <= at < asked <= |tg.log| && tg.log[at] == RelayRequest(binder.adminGroupId, clientId, user, m, messageId, thread)
      ensures res.Ok? ==> clientId in store.topics && Asked(tg.log, asked, binder.adminGroupId, clientId, store.topics[clientId].threadId, question, options)
    {
      asked := 0;
      res, at, thread := Relay(clientId, sid, user, m, messageId, now);
      if res.Err? {
        return;
      }
      ghost var relayed := tg.log;
      ghost var req := RelayRequest(binder.adminGroupId, clientId, user, m, messageId, thread);
      asked := |relayed|;
      res := Ask(clientId, sid, user, question, options, now);
      PrefixAt(relayed, tg.log, at, req);
    }

    /**
     * A survey question: with options, a card with buttons (labelled for `user`) into
     * the topic and then the question to the client; without, the question to the
     * client and then its mirror.
     */
    method Ask(clientId: int, sid: int, user: User, question: string, options: Option<seq<Choice>>, now: int) returns (res: Result<(), string>)
      requires Valid()
      modifies binder`cache, store`topics, store`threadIndex, store`messages, tg`log
      ensures Valid()
      ensures old(tg.log) <= tg.log
      ensures res.Ok? ==> clientId in store.topics && Asked(tg.log, |old(tg.log)|, binder.adminGroupId, clientId, store.topics[clientId].threadId, question, options)
      ensures res.Ok? ==> old(store.messages) <= store.messages
    {
      match options
      case Some(items) =>
        res := AskWithOptions(clientId, sid, question, items, user, now);
      case None =>
        res := SendBotToClient(clientId, sid, question, now);
    }

    /**
     * What follows an accepted answer: its card and log row, an optional card into
     * the topic, then the next question, with its buttons when it has them.
     */
    method Acknowledge(clientId: int, sid: int, user: User, a: Ack, now: int) returns (res: Result<(), string>, ghost asked: nat)
      requires Valid()
      modifies binder`cache, store`topics, store`threadIndex, store`messages, tg`log
      ensures Valid()
      ensures old(tg.log) <= tg.log
      ensures res.Ok? ==>
        && |old(tg.log)| < asked <= |tg.log|
        && clientId in store.topics
        && Asked(tg.log, asked, binder.adminGroupId, clientId, store.topics[clientId].threadId, a.next, a.options)
    {
      asked := |tg.log|;
      res := LogAnswer(clientId, sid, user, a.question, a.answer, now);
      if res.Err? {
        return;
      }
      if a.card.Some? {
        var sent := TopicSend(clientId, user, a.card.value, now);
        if sent.Err? {
          res := Err(sent.error);
          return;
        }
      }
      asked := |tg.log|;
      res := Ask(clientId, sid, user, a.next, a.options, now);
    }

    /**
     * The sends that close the survey: thanks to the client, the survey
     * spreadsheet into the client's topic when delivery is on, and the free-chat
     * notice into the topic, which is then the last call.
     */
    method Conclude(clientId: int, sid: int, user: User, now: int) returns (res: Result<(), string>)
      requires Valid()
      modifies binder`cache, store`topics, store`threadIndex, store`messages, tg`log
      ensures Valid()
      ensures res.Ok? ==>
        && clientId in store.topics && |tg.log| > 0
        && tg.log[|tg.log| - 1] == SendMessage(binder.adminGroupId, Some(store.topics[clientId].threadId), FreeChatNotice)
    {
      res := SendBotToClient(clientId, sid, ThanksText, now);
      if res.Err? {
        return;
      }
      var topic := TopicOf(clientId, user, now);
      if topic.Err? {
        return Err(topic.error);
      }
      var excel := SurveyExcel(sendExcel, clientId, user, topic.value, sid, now);
      if excel.Err? {
        return Err(excel.error);
      }
      var notice := TopicSend(clientId, user, FreeChatNotice, now);
      if notice.Err? {
        return Err(notice.error);
      }
      return Ok(());
    }

    /** The first half of storing an accepted answer: the answer's columns are patched into the row, then it is acknowledged. */
    method PatchAndAcknowledge(clientId: int, sid: int, user: User, patch: map<string, Store.Cell>, a: Ack, now: int)
      returns (res: Result<(), string>, ghost asked: nat)
      requires Valid() && store.Owns(clientId, sid)
      modifies binder`cache, store`topics, store`threadIndex, store`sessions, store`messages, tg`log
      ensures Valid()
      ensures store.sessions == WithPatch(old(store.sessions), sid, patch, now)
      ensures old(tg.log) <= tg.log
      ensures res.Ok? ==>
        && |old(tg.log)| < asked <= |tg.log|
        && clientId in store.topics
        && Asked(tg.log, asked, binder.adminGroupId, clientId, store.topics[clientId].threadId, a.next, a.options)
    {
      store.UpdateSession(clientId, sid, patch, now);
      ghost var mid := store.sessions;
      assert mid == WithPatch(old(store.sessions), sid, patch, now);
      assert tg.log == old(tg.log);
      res, asked := Acknowledge(clientId, sid, user, a, now);
      assert store.sessions == mid;
    }

    /**
     * An accepted answer in the CATEGORY, NAME or MOOD step: the patch stores it,
     * its card and log row follow with the next question, and only then does the
     * session move on to the next step.
     */
    method StoreAnswer(clientId: int, sid: int, user: User, step: Step, text: string, now: int)
      returns (res: Result<(), string>, ghost asked: nat)
      requires Valid() && store.Owns(clientId, sid) && Store.StateOf(store.sessions[sid - 1]) == StepName(step)
      requires Accepts(step, text) && step in {Category, Name, Mood}
      modifies binder`cache, store`topics, store`threadIndex, store`sessions, store`messages, tg`log
      ensures Valid()
      ensures Answered(old(store.sessions), store.sessions, sid, step, text, res.Ok?)
      ensures res.Ok? && step == Mood ==>
        Store.Col(store.sessions[sid - 1].cols, "mood_key") == Store.Str(Moods()[MatchChoice(text, Moods()).value].key)
      ensures old(tg.log) <= tg.log
      ensures res.Ok? ==>
        && |old(tg.log)| < asked <= |tg.log|
        && clientId in store.topics
        && Asked(tg.log, asked, binder.adminGroupId, clientId, store.topics[clientId].threadId,
                 Acknowledgement(step, text).next, Acknowledgement(step, text).options)
    {
      ghost var rows := store.sessions;
      res, asked := PatchAndAcknowledge(clientId, sid, user, AnswerPatch(step, text), Acknowledgement(step, text), now);
      if res.Err? {
        AnswerPatched(rows, sid, step, text, now);
        return;
      }
      MoveOn(rows, clientId, sid, step, text, now);
    }

    /** After the acknowledgement of an accepted answer, the session moves on to the next step. */
    method MoveOn(ghost rows: seq<Store.SessionRow>, clientId: int, sid: int, step: Step, text: string, now: int)
      requires Valid() && store.Owns(clientId, sid) && 1 <= sid <= |rows|
      requires Accepts(step, text) && step in {Category, Name, Mood}
      requires store.sessions == WithPatch(rows, sid, AnswerPatch(step, text), now)
      modifies store`sessions
      ensures Valid()
      ensures Answered(rows, store.sessions, sid, step, text, true)
      ensures step == Mood ==>
        Store.Col(store.sessions[sid - 1].cols, "mood_key") == Store.Str(Moods()[MatchChoice(text, Moods()).value].key)
    {
      store.SetSessionState(clientId, sid, StepName(Next(step)), now);
      assert store.sessions == WithState(WithPatch(rows, sid, AnswerPatch(step, text), now), sid, StepName(Next(step)), now);
      AnswerStored(rows, sid, step, text, now, true);
      if step == Mood {
        MoodKeyStored(rows, sid, text, now);
      }
    }

    /** The CATEGORY step: a known category is stored and the name is asked; anything else is relayed and the question asked again. */
    method AnswerCategory(clientId: int, sid: int, user: User, m: Content, messageId: int, now: int) returns (res: Result<(), string>)
      requires Valid() && store.Owns(clientId, sid) && Store.StateOf(store.sessions[sid - 1]) == "CATEGORY"
      modifies binder`cache, store`topics, store`threadIndex, store`sessions, store`messages, tg`log
      ensures Valid()
      ensures Answered(old(store.sessions), store.sessions, sid, Category, m.text, res.Ok?)
    {
      var choice := MatchChoice(m.text, Categories());
      if choice.None? {
        ghost var at, asked, thread;
        res, at, asked, thread := Reprompt(clientId, sid, user, Category, m, messageId, SurveyQCategory, Some(Categories()), now);
        return;
      }
      ghost var asked;
      res, asked := StoreAnswer(clientId, sid, user, Category, m.text, now);
    }

    /** The NAME step: a non-blank trimmed text is the name, and the mood is asked; a blank one is relayed and the question asked again. */
    method AnswerName(clientId: int, sid: int, user: User, m: Content, messageId: int, now: int) returns (res: Result<(), string>)
      requires Valid() && store.Owns(clientId, sid) && Store.StateOf(store.sessions[sid - 1]) == "NAME"
      modifies binder`cache, store`topics, store`threadIndex, store`sessions, store`messages, tg`log
      ensures Valid()
      ensures Answered(old(store.sessions), store.sessions, sid, Name, m.text, res.Ok?)
    {
      if Trim(m.text) == "" {
        ghost var at, asked, thread;
        res, at, asked, thread := Reprompt(clientId, sid, user, Name, m, messageId, SurveyQName, None, now);
        return;
      }
      ghost var asked;
      res, asked := StoreAnswer(clientId, sid, user, Name, m.text, now);
    }

    /** The MOOD step: a known mood is stored, its three questions are listed in the topic, and the first is asked. */
    method AnswerMood(clientId: int, sid: int, user: User, m: Content, messageId: int, now: int) returns (res: Result<(), string>)
      requires Valid() && store.Owns(clientId, sid) && Store.StateOf(store.sessions[sid - 1]) == "MOOD"
      modifies binder`cache, store`topics, store`threadIndex, store`sessions, store`messages, tg`log
      ensures Valid()
      ensures Answered(old(store.sessions), store.sessions, sid, Mood, m.text, res.Ok?)
      ensures res.Ok? && Accepts(Mood, m.text) ==>
        Store.Col(store.sessions[sid - 1].cols, "mood_key") == Store.Str(Moods()[MatchChoice(m.text, Moods()).value].key)
    {
      var mood := MatchChoice(m.text, Moods());
      if mood.None? {
        ghost var at, asked, thread;
        res, at, asked, thread := Reprompt(clientId, sid, user, Mood, m, messageId, SurveyQMood, Some(Moods()), now);
        return;
      }
      ghost var asked;
      res, asked := StoreAnswer(clientId, sid, user, Mood, m.text, now);
    }

    /**
     * The MOOD_Qn steps: any trimmed text (even blank) answers question n of the
     * stored mood; the next question is asked, or after the third the session moves
     * to free chat, the survey spreadsheet is sent and free chat is announced.
     */
    method AnswerMoodQuestion(clientId: int, sid: int, user: User, step: Step, m: Content, now: int) returns (res: Result<(), string>)
      requires Valid() && store.Owns(clientId, sid) && step in {MoodQ1, MoodQ2, MoodQ3}
      requires Store.StateOf(store.sessions[sid - 1]) == StepName(step)
      modifies binder`cache, store`topics, store`threadIndex, store`sessions, store`messages, tg`log
      ensures Valid()
      ensures Answered(old(store.sessions), store.sessions, sid, step, m.text, res.Ok?)
    {
      var moodKey := Excel.Answer(Some(store.sessions[sid - 1].cols), "mood_key");
      var n := if step == MoodQ1 then 0 else if step == MoodQ2 then 1 else 2;
      res := LogAnswer(clientId, sid, user, MoodQuestion(moodKey, n), Trim(m.text), now);
      if res.Err? {
        Unanswered(store.sessions, sid, step, m.text, false);
        return;
      }
      if step == MoodQ3 {
        res := ConcludeMoodQuestions(clientId, sid, user, step, m.text, now);
      } else {
        res := AskNextMoodQuestion(clientId, sid, step, m.text, MoodQuestion(moodKey, n + 1), now);
      }
    }

    /** The answer to the first or second mood question is stored, the next question is sent, and only then does the session move on. */
    method AskNextMoodQuestion(clientId: int, sid: int, step: Step, text: string, question: string, now: int) returns (res: Result<(), string>)
      requires Valid() && store.Owns(clientId, sid) && step in {MoodQ1, MoodQ2}
      requires Store.StateOf(store.sessions[sid - 1]) == StepName(step)
      modifies binder`cache, store`topics, store`threadIndex, store`sessions, store`messages, tg`log
      ensures Valid()
      ensures Answered(old(store.sessions), store.sessions, sid, step, text, res.Ok?)
      ensures old(tg.log) <= tg.log
      ensures res.Ok? ==>
        && clientId in store.topics
        && Asked(tg.log, |old(tg.log)|, binder.adminGroupId, clientId, store.topics[clientId].threadId, question, None)
    {
      ghost var rows := store.sessions;
      res := PatchAndAsk(clientId, sid, AnswerPatch(step, text), question, now);
      if res.Err? {
        AnswerPatched(rows, sid, step, text, now);
        return;
      }
      store.SetSessionState(clientId, sid, StepName(Next(step)), now);
      assert store.sessions == WithState(WithPatch(rows, sid, AnswerPatch(step, text), now), sid, StepName(Next(step)), now);
      AnswerStored(rows, sid, step, text, now, true);
    }

    /** The patch of a mood answer, then the next mood question to the client, mirrored into the topic. */
    method PatchAndAsk(clientId: int, sid: int, patch: map<string, Store.Cell>, question: string, now: int)
      returns (res: Result<(), string>)
      requires Valid() && store.Owns(clientId, sid)
      modifies binder`cache, store`topics, store`threadIndex, store`sessions, store`messages, tg`log
      ensures Valid()
      ensures store.sessions == WithPatch(old(store.sessions), sid, patch, now)
      ensures old(tg.log) <= tg.log
      ensures res.Ok? ==>
        && clientId in store.topics
        && Asked(tg.log, |old(tg.log)|, binder.adminGroupId, clientId, store.topics[clientId].threadId, question, None)
    {
      store.UpdateSession(clientId, sid, patch, now);
      ghost var mid := store.sessions;
      assert mid == WithPatch(old(store.sessions), sid, patch, now);
      assert tg.log == old(tg.log);
      res := Ask(clientId, sid, NoUser, question, None, now);
      assert store.sessions == mid;
    }

    /**
     * The answer to the third mood question is stored and the session moves to free
     * chat before the thanks, the survey spreadsheet and the free-chat notice go out.
     */
    method ConcludeMoodQuestions(clientId: int, sid: int, user: User, step: Step, text: string, now: int) returns (res: Result<(), string>)
      requires Valid() && store.Owns(clientId, sid) && step == MoodQ3
      requires Store.StateOf(store.sessions[sid - 1]) == StepName(step)
      modifies binder`cache, store`topics, store`threadIndex, store`sessions, store`messages, tg`log
      ensures Valid()
      ensures Answered(old(store.sessions), store.sessions, sid, step, text, res.Ok?)
      ensures Store.StateOf(store.sessions[sid - 1]) == "CHAT"
      ensures Store.Col(store.sessions[sid - 1].cols, "mood_q3") == Store.Str(Trim(text))
    {
      ghost var rows := store.sessions;
      var patch := AnswerPatch(step, text);
      store.UpdateSession(clientId, sid, patch, now);
      ghost var mid := store.sessions;
      assert mid == WithPatch(rows, sid, patch, now);
      var state := StepName(Next(step));
      store.SetSessionState(clientId, sid, state, now);
      ghost var closed := store.sessions;
      assert closed == WithState(mid, sid, state, now);
      res := Conclude(clientId, sid, user, now);
      assert store.sessions == closed;
      AnswerStored(rows, sid, step, text, now, res.Ok?);
    }

    /**
     * `handlePrivateMessage`: "/start" opens a new session; otherwise the message
     * answers the step of the client's active session (a new one is opened when
     * there is none); in free chat or an unknown state it is only relayed.
     */
    method HandlePrivate(clientId: int, user: User, m: Content, messageId: int, now: int) returns (res: Result<(), string>)
      requires Valid()
      modifies binder`cache, store`topics, store`threadIndex, store`sessions, store`messages, tg`log
      ensures Valid()
      ensures IsStart(m.text) ==> store.sessions == old(store.sessions) || Began(old(store.sessions), store.sessions, clientId, now, "CATEGORY")
      ensures IsStart(m.text) && res.Ok? ==>
        Began(old(store.sessions), store.sessions, clientId, now, "CATEGORY")
      ensures !IsStart(m.text) && old(store.ActiveSession(clientId)).Some? ==>
        var sid := old(store.ActiveSession(clientId)).value;
        AnsweredInState(old(store.sessions), store.sessions, sid, m.text, res.Ok?)
      ensures !IsStart(m.text) && old(store.ActiveSession(clientId)).None? && res.Ok? ==>
        Began(old(store.sessions), store.sessions, clientId, now, StepName(After(Category, m.text)))
    {
      var topic := TopicOf(clientId, user, now);
      if topic.Err? {
        return Err(topic.error);
      }
      if IsStart(m.text) {
        var started := StartNewSessionFlow(clientId, user, now);
        if started.Err? {
          return Err(started.error);
        }
        return Ok(());
      }
      var active := store.ActiveSession(clientId);
      if active.None? {
        res := OpenAndAnswer(clientId, user, m, messageId, now);
        return;
      }
      res := AnswerInState(clientId, active.value, user, m, messageId, now);
    }

    /** A client with no active session: a new one is opened and the message answers its first step. */
    method OpenAndAnswer(clientId: int, user: User, m: Content, messageId: int, now: int) returns (res: Result<(), string>)
      requires Valid()
      modifies binder`cache, store`topics, store`threadIndex, store`sessions, store`messages, tg`log
      ensures Valid()
      ensures res.Ok? ==>
        Began(old(store.sessions), store.sessions, clientId, now, StepName(After(Category, m.text)))
    {
      var started := StartNewSessionFlow(clientId, user, now);
      if started.Err? {
        return Err(started.error);
      }
      ghost var mid := store.sessions;
      res := AnswerCategory(clientId, started.value, user, m, messageId, now);
      assert store.sessions[..|old(store.sessions)|] == mid[..|old(store.sessions)|];
    }

    /** The message answers the step the session `sid` is in; in free chat or an unknown state it is only relayed. */
    method AnswerInState(clientId: int, sid: int, user: User, m: Content, messageId: int, now: int) returns (res: Result<(), string>)
      requires Valid() && store.Owns(clientId, sid)
      modifies binder`cache, store`topics, store`threadIndex, store`sessions, store`messages, tg`log
      ensures Valid()
      ensures AnsweredInState(old(store.sessions), store.sessions, sid, m.text, res.Ok?)
    {
      var step := ParseStep(Store.StateOf(store.sessions[sid - 1]));
      ghost var at, thread;
      if step.None? {
        res, at, thread := Relay(clientId, sid, user, m, messageId, now);
        return;
      }
      match step.value {
        case Category => res := AnswerCategory(clientId, sid, user, m, messageId, now);
        case Name => res := AnswerName(clientId, sid, user, m, messageId, now);
        case Mood => res := AnswerMood(clientId, sid, user, m, messageId, now);
        case Chat =>
          ghost var rows := store.sessions;
          res, at, thread := Relay(clientId, sid, user, m, messageId, now);
          Unanswered(rows, sid, Chat, m.text, res.Ok?);
        case _ => res := AnswerMoodQuestion(clientId, sid, user, step.value, m, now);
      }
    }

    /**
     * `handleGroupMessage`: an operator's message in a client's topic. A message not
     * addressed to the bot, or in a thread bound to no client, is ignored. The client
     * gets a session if it has none; "/finish" closes it, tells both sides and logs
     * both messages; anything else is copied to the client and logged.
     */
    method HandleGroup(m: Message, now: int) returns (res: Result<(), string>)
      requires Valid()
      modifies binder`cache, store`topics, store`threadIndex, store`sessions, store`messages, tg`log
      ensures Valid()
      ensures !Addressed(m, binder.adminGroupId, operatorIds)
              || old(store.ClientByThread(m.threadId.value)).None? || old(store.ClientByThread(m.threadId.value)) == Some(0) ==>
        res.Ok? && tg.log == old(tg.log) && store.sessions == old(store.sessions) && store.messages == old(store.messages)
      ensures Addressed(m, binder.adminGroupId, operatorIds) && old(store.ClientByThread(m.threadId.value)).Some?
              && old(store.ClientByThread(m.threadId.value)).value != 0 ==>
        var clientId := old(store.ClientByThread(m.threadId.value)).value;
        && OperatorSession(old(store.sessions), store.sessions, clientId, now, IsFinish(Command(m.content.text)), res.Ok?)
        && OperatorSent(tg.log, clientId, binder.adminGroupId, m, IsFinish(Command(m.content.text)), res.Ok?)
    {
      if !Addressed(m, binder.adminGroupId, operatorIds) {
        return Ok(());
      }
      var bound := store.ClientByThread(m.threadId.value);
      if bound.None? || bound.value == 0 {
        return Ok(());
      }
      res := Operate(bound.value, m, now);
    }

    /** What the operator's message does once its topic is known to belong to client `clientId`. */
    method Operate(clientId: int, m: Message, now: int) returns (res: Result<(), string>)
      requires Valid() && m.threadId.Some?
      modifies binder`cache, store`topics, store`threadIndex, store`sessions, store`messages, tg`log
      ensures Valid()
      ensures OperatorSession(old(store.sessions), store.sessions, clientId, now, IsFinish(Command(m.content.text)), res.Ok?)
      ensures OperatorSent(tg.log, clientId, binder.adminGroupId, m, IsFinish(Command(m.content.text)), res.Ok?)
    {
      var active := store.ActiveSession(clientId);
      if active.Some? {
        res := OperateInSession(clientId, active.value, m, now);
        return;
      }
      var sid, announced := OpenForOperator(clientId, m.threadId.value, now);
      if announced.Err? {
        return Err(announced.error);
      }
      ghost var mid := store.sessions;
      res := OperateInSession(clientId, sid, m, now);
      assert store.sessions[..|old(store.sessions)|] == mid[..|old(store.sessions)|];
    }

    /** The operator's message in session `sid` of the client: "/finish" closes it, anything else is copied to the client. */
    method OperateInSession(clientId: int, sid: int, m: Message, now: int) returns (res: Result<(), string>)
      requires Valid() && m.threadId.Some? && store.Owns(clientId, sid)
      modifies store`sessions, store`messages, tg`log
      ensures Valid()
      ensures |store.sessions| == |old(store.sessions)| && store.sessions == old(store.sessions)[sid - 1 := store.sessions[sid - 1]]
      ensures store.sessions[sid - 1].clientId == clientId
      ensures IsFinish(Command(m.content.text)) ==> !Store.Active(store.sessions[sid - 1])
      ensures !IsFinish(Command(m.content.text)) ==> store.sessions == old(store.sessions)
      ensures OperatorSent(tg.log, clientId, binder.adminGroupId, m, IsFinish(Command(m.content.text)), res.Ok?)
    {
      var cmd := Command(m.content.text);
      if IsFinish(cmd) {
        res := FinishFromTopic(clientId, sid, m.threadId.value, cmd, m.messageId, now);
        assert OperatorSent(tg.log, clientId, binder.adminGroupId, m, true, res.Ok?);
      } else {
        res := CopyToClient(clientId, sid, m.threadId.value, m, now);
        assert OperatorSent(tg.log, clientId, binder.adminGroupId, m, false, res.Ok?);
      }
    }

    /** A client with no active session when an operator writes: a session is opened and announced in the topic. */
    method OpenForOperator(clientId: int, threadId: int, now: int) returns (sid: int, res: Result<Binder.Sent, string>)
      requires Valid()
      modifies store`sessions, tg`log
      ensures Valid()
      ensures store.sessions == Store.Deactivate(old(store.sessions), clientId, now) + [Store.NewSession(clientId, now)]
      ensures sid == |store.sessions| && Opened(old(store.sessions), store.sessions, clientId, now)
      ensures res.Ok? ==> tg.log == old(tg.log) + [SendMessage(binder.adminGroupId, Some(threadId), AutoSessionStarted(sid))]
    {
      sid := store.StartSession(clientId, now);
      Store.StartSessionLeavesOneActive(old(store.sessions), clientId, now);
      res := binder.SendToThreadStrict(threadId, AutoSessionStarted(sid));
    }

    /**
     * "/finish" from the topic: the session is closed, the client and the topic are
     * told, and the operator's command and the bot's reply are logged.
     */
    method FinishFromTopic(clientId: int, sid: int, threadId: int, cmd: string, messageId: int, now: int) returns (res: Result<(), string>)
      requires Valid() && store.Owns(clientId, sid)
      modifies store`sessions, store`messages, tg`log
      ensures Valid()
      ensures |store.sessions| == |old(store.sessions)| && store.sessions == old(store.sessions)[sid - 1 := store.sessions[sid - 1]]
      ensures store.sessions[sid - 1].clientId == clientId && !Store.Active(store.sessions[sid - 1])
      ensures res.Ok? ==>
        && |tg.log| >= 2 && tg.log[|tg.log| - 2] == SendMessage(clientId, None, FinishedClientText)
        && tg.log[|tg.log| - 1] == SendMessage(binder.adminGroupId, Some(threadId), FinishedTopicText)
      ensures res.Ok? ==>
        store.messages == old(store.messages)
          + Store.Logged(store.messageColumns, clientId, Some(sid),
              OperatorOut(binder.adminGroupId, threadId, clientId, Detected("text", cmd), messageId, None, Payload("action")), now)
          + Store.Logged(store.messageColumns, clientId, Some(sid), BotOut(clientId, FinishedClientText, None, None), now)
    {
      store.FinishSession(clientId, sid, now);
      res := AnnounceFinish(clientId, sid, threadId, cmd, messageId, now);
    }

    /** The client and then the topic are told the session is over; both messages are logged once both went out. */
    method AnnounceFinish(clientId: int, sid: int, threadId: int, cmd: string, messageId: int, now: int) returns (res: Result<(), string>)
      requires Valid()
      modifies store`messages, tg`log
      ensures Valid()
      ensures res.Ok? ==>
        && |tg.log| >= 2 && tg.log[|tg.log| - 2] == SendMessage(clientId, None, FinishedClientText)
        && tg.log[|tg.log| - 1] == SendMessage(binder.adminGroupId, Some(threadId), FinishedTopicText)
      ensures res.Ok? ==>
        store.messages == old(store.messages)
          + Store.Logged(store.messageColumns, clientId, Some(sid),
              OperatorOut(binder.adminGroupId, threadId, clientId, Detected("text", cmd), messageId, None, Payload("action")), now)
          + Store.Logged(store.messageColumns, clientId, Some(sid), BotOut(clientId, FinishedClientText, None, None), now)
      ensures res.Err? ==> store.messages == old(store.messages)
    {
      var told := SendToClient(clientId, FinishedClientText);
      if told.Err? {
        return Err(told.error);
      }
      var closed := binder.SendToThreadStrict(threadId, FinishedTopicText);
      if closed.Err? {
        return Err(closed.error);
      }
      ghost var l := tg.log;
      store.LogMessage(clientId, Some(sid),
        OperatorOut(binder.adminGroupId, threadId, clientId, Detected("text", cmd), messageId, None, Payload("action")), now);
      store.LogMessage(clientId, Some(sid), BotOut(clientId, FinishedClientText, None, None), now);
      assert tg.log == l;
      return Ok(());
    }

    /** Anything but "/finish" from the topic is copied to the client and logged with the copy's message id. */
    method CopyToClient(clientId: int, sid: int, threadId: int, m: Message, now: int) returns (res: Result<(), string>)
      requires Valid()
      modifies store`messages, tg`log
      ensures Valid()
      ensures |tg.log| == |old(tg.log)| + 1 && tg.log[|tg.log| - 1] == CopyMessage(clientId, binder.adminGroupId, m.messageId)
      ensures res.Err? <==> tg.answer(|old(tg.log)|).Raised?
      ensures res.Ok? ==>
        store.messages == old(store.messages)
          + Store.Logged(store.messageColumns, clientId, Some(sid),
              OperatorOut(binder.adminGroupId, threadId, clientId, DetectMsgType(m.content), m.messageId,
                          NonZero(tg.answer(|old(tg.log)|).messageId), None), now)
      ensures res.Err? ==> store.messages == old(store.messages)
    {
      var d := DetectMsgType(m.content);
      var copied := tg.Call(CopyMessage(clientId, binder.adminGroupId, m.messageId));
      if copied.Raised? {
        return Err(copied.message);
      }
      store.LogMessage(clientId, Some(sid),
        OperatorOut(binder.adminGroupId, threadId, clientId, d, m.messageId, NonZero(copied.messageId), None), now);
      return Ok(());
    }

    /**
     * One batch of the update loop of `main`: for each update the offset moves past
     * it and is stored before the update is handled; a private message's failure is
     * reported to the client, a group message's failure is dropped, and either way
     * the loop goes on with the next update.
     */
    method ProcessBatch(updates: seq<Update>, offset0: int, now: int) returns (offset: int)
      requires Valid()
      modifies binder`cache, store`topics, store`threadIndex, store`sessions, store`messages, store`meta, tg`log, this`served
      ensures Valid()
      ensures updates == [] ==> offset == offset0 && store.meta == old(store.meta)
      ensures updates != [] ==> offset == updates[|updates| - 1].updateId + 1 && store.BotOffset() == Some(offset)
      ensures updates != [] && updates[|updates| - 1].updateId >= 0 ==>
        forall pending :: ResumeOffset(store.BotOffset(), pending) == offset
      ensures served == old(served) + Dispatched(updates, binder.adminGroupId)
    {
      offset := offset0;
      for i := 0 to |updates|
        invariant Valid()
        invariant i == 0 ==> offset == offset0 && store.meta == old(store.meta)
        invariant i > 0 ==> offset == updates[i - 1].updateId + 1 && store.BotOffset() == Some(offset)
        invariant served == old(served) + Dispatched(updates[..i], binder.adminGroupId)
      {
        DispatchedNext(updates, i, binder.adminGroupId);
        offset := Advance(updates[i], now);
      }
      assert updates[..|updates|] == updates;
    }

    /** One update: the offset moves past it and is stored, then a routed message is handled. */
    method Advance(u: Update, now: int) returns (offset: int)
      requires Valid()
      modifies binder`cache, store`topics, store`threadIndex, store`sessions, store`messages, store`meta, tg`log, this`served
      ensures Valid()
      ensures offset == u.updateId + 1 && store.BotOffset() == Some(offset)
      ensures served == old(served) + (if Routes(u, binder.adminGroupId) then [u.message.value] else [])
    {
      offset := u.updateId + 1;
      store.SetBotOffset(offset, now);
      if Routes(u, binder.adminGroupId) {
        var handled := HandleUpdate(u.message.value, now);
      }
    }

    /** One routed message: a private message's failure is reported to the client with the generic apology, a group message's failure is dropped. */
    method HandleUpdate(m: Message, now: int) returns (handled: Result<(), string>)
      requires Valid()
      modifies binder`cache, store`topics, store`threadIndex, store`sessions, store`messages, tg`log, this`served
      ensures Valid()
      ensures served == old(served) + [m]
      ensures m.chatType == "private" && handled.Err? ==> |tg.log| > 0 && tg.log[|tg.log| - 1] == SendMessage(m.chatId, None, TechErrorText)
    {
      served := served + [m];
      if m.chatType == "private" {
        handled := HandlePrivate(m.chatId, m.user, m.content, m.messageId, now);
        if handled.Err? {
          var ignored := SendToClient(m.chatId, TechErrorText);
        }
      } else {
        handled := HandleGroup(m, now);
      }
    }

    /**
     * The start of `main`'s loop: a stored offset is reused (0 when negative);
     * with none stored, the loop starts after the updates still pending (the
     * snapshot `pending` of their ids) and that offset is stored.
     */
    method RestoreOffset(pending: seq<int>, now: int) returns (offset: int)
      modifies store`meta
      ensures offset == ResumeOffset(old(store.BotOffset()), pending)
      ensures old(store.BotOffset()).Some? ==> store.meta == old(store.meta)
      ensures old(store.BotOffset()).None? ==> store.BotOffset() == Some(offset)
    {
      var saved := store.BotOffset();
      if saved.Some? {
        offset := if saved.value >= 0 then saved.value else 0;
        return;
      }
      offset := if pending == [] then 0 else pending[|pending| - 1] + 1;
      store.SetBotOffset(offset, now);
    }
  }
}
