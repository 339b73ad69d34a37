/**
 * The pure helpers of the bot's main module (src/index.js): the label that names a
 * client to operators, the two-column reply keyboard, recognising a pressed answer
 * button, classifying an incoming message, the forum-topic title, the `/finish`
 * command, and the states of the survey a client walks through.
 */
module Survey {
  import opened Wrappers
  import opened Text
  import opened Config

  /** The part of a Telegram `User` the bot reads. An absent field is "" (the code treats both as falsy). */
  datatype User = User(username: string, firstName: string, lastName: string)

  /** The part of the label before the id: "@username" and the trimmed full name, each only when present, joined by one space. */
  function LabelPrefix(u: User): string {
    var uname := if u.username != "" then "@" + u.username else "";
    var name := Trim(u.firstName + " " + u.lastName);
    if uname != "" && name != "" then uname + " " + name else uname + name
  }

  /** `safeUserLabel(u, clientId)`: the prefix, then " | " if there is one, then "id:<clientId>". */
  function SafeUserLabel(u: User, clientId: int): string {
    var p := LabelPrefix(u);
    var id := "id:" + IntToString(clientId);
    if p != "" then p + " | " + id else id
  }

  /** The label always ends with the client's id, starts with the "@" username when there is one, and is the id alone exactly when the user has no username and a blank name. */
  lemma SafeUserLabelShape(u: User, clientId: int)
    ensures EndsWith(SafeUserLabel(u, clientId), "id:" + IntToString(clientId))
    ensures u.username != "" ==> StartsWith(SafeUserLabel(u, clientId), "@" + u.username)
    ensures SafeUserLabel(u, clientId) == "id:" + IntToString(clientId) <==> u.username == "" && Trim(u.firstName + " " + u.lastName) == ""
  {
    var p := LabelPrefix(u);
    var id := "id:" + IntToString(clientId);
    var r := SafeUserLabel(u, clientId);
    var uname := if u.username != "" then "@" + u.username else "";
    var name := Trim(u.firstName + " " + u.lastName);
    assert p == (if uname != "" && name != "" then uname + " " + name else uname + name);
    assert p == "" <==> uname == "" && name == "";
    if p != "" {
      assert r == p + " | " + id;
      assert r[|r| - |id|..] == id;
      assert |r| > |id|;
      assert u.username != "" ==> p[..|uname|] == uname && r[..|uname|] == p[..|uname|];
    } else {
      assert r == id;
    }
  }

  /** The rows read left to right, one after the other. */
  function Flatten<T>(rows: seq<seq<T>>): seq<T> {
    if rows == [] then [] else Flatten(rows[..|rows| - 1]) + rows[|rows| - 1]
  }

  /** Where row `k` of a two-column layout of `n` items ends. */
  function RowEnd(k: nat, n: nat): nat {
    if 2 * k + 2 <= n then 2 * k + 2 else n
  }

  /** The layout `twoColRows` produces: row `k` holds the items at 2k and, if there is one, 2k + 1. */
  ghost predicate TwoColumns<T>(arr: seq<T>, rows: seq<seq<T>>) {
    |rows| == (|arr| + 1) / 2
    && forall k :: 0 <= k < |rows| ==> 2 * k < RowEnd(k, |arr|) <= |arr| && rows[k] == arr[2 * k..RowEnd(k, |arr|)]
  }

  /**
   * `twoColRows(arr)`: the buttons laid out two per row. (The items are button objects,
   * always truthy, so the `arr[i + 1]` test is the same as "there is a next item".)
   */
  method TwoColRows<T>(arr: seq<T>) returns (rows: seq<seq<T>>)
    ensures TwoColumns(arr, rows)
  {
    rows := [];
    var i := 0;
    while i < |arr|
      invariant i == 2 * |rows| && |rows| <= (|arr| + 1) / 2
      invariant forall k :: 0 <= k < |rows| ==> 2 * k < RowEnd(k, |arr|) <= |arr| && rows[k] == arr[2 * k..RowEnd(k, |arr|)]
    {
      var row := [arr[i]];
      if i + 1 < |arr| {
        row := row + [arr[i + 1]];
      }
      assert row == arr[i..RowEnd(|rows|, |arr|)];
      rows := rows + [row];
      i := i + 2;
    }
  }

  /** How many items the first `m` rows of the layout hold. */
  function PrefixEnd(m: nat, n: nat): nat {
    if m == 0 then 0 else RowEnd(m - 1, n)
  }

  lemma {:induction false} FlattenPrefix<T>(arr: seq<T>, rows: seq<seq<T>>, m: nat)
    requires TwoColumns(arr, rows) && m <= |rows|
    ensures PrefixEnd(m, |arr|) <= |arr| && Flatten(rows[..m]) == arr[..PrefixEnd(m, |arr|)]
    decreases m
  {
    if m > 0 {
      FlattenPrefix(arr, rows, m - 1);
      assert rows[..m][..m - 1] == rows[..m - 1];
      var lo := PrefixEnd(m - 1, |arr|);
      assert lo == 2 * (m - 1);
      assert arr[..lo] + arr[lo..RowEnd(m - 1, |arr|)] == arr[..RowEnd(m - 1, |arr|)];
    }
  }

  /** Every row of the layout holds one or two items, all but the last hold two, and reading the rows in order gives the items back. */
  lemma TwoColumnsFlatten<T>(arr: seq<T>, rows: seq<seq<T>>)
    requires TwoColumns(arr, rows)
    ensures Flatten(rows) == arr
    ensures forall k :: 0 <= k < |rows| ==> 1 <= |rows[k]| <= 2 && (k < |rows| - 1 ==> |rows[k]| == 2)
  {
    FlattenPrefix(arr, rows, |rows|);
    assert rows[..|rows|] == rows;
  }

  /** The text of a choice's button: emoji, a space, the label. */
  function ButtonText(it: Choice): string {
    it.emoji + " " + it.caption
  }

  /** The trimmed text `t` names `it`: it is the button's trimmed text or the trimmed label alone. */
  predicate Selects(t: string, it: Choice) {
    t == Trim(ButtonText(it)) || t == Trim(it.caption)
  }

  /** The position of the first item from `i` on that satisfies `p` (`Array.prototype.find` by position). */
  function FirstWhere<T>(p: T -> bool, items: seq<T>, i: nat): (r: Option<nat>)
    requires i <= |items|
    ensures r.Some? ==> i <= r.value < |items| && p(items[r.value])
    ensures r.Some? ==> forall k :: i <= k < r.value ==> !p(items[k])
    ensures r.None? ==> forall k :: i <= k < |items| ==> !p(items[k])
    decreases |items| - i
  {
    if i == |items| then None
    else if p(items[i]) then Some(i)
    else FirstWhere(p, items, i + 1)
  }

  /**
   * `matchChoice(text, items)`, answering with the position of the chosen item: nothing
   * for a blank text, else the first item whose button text or label the trimmed text equals.
   */
  function MatchChoice(text: string, items: seq<Choice>): (r: Option<nat>)
    ensures r.Some? ==> r.value < |items|
  {
    var t := Trim(text);
    if t == "" then None else FirstWhere(it => Selects(t, it), items, 0)
  }

  /** The chosen item is the first one the trimmed, non-blank text selects; with none chosen, the text is blank or selects nothing. */
  lemma MatchChoiceFirst(text: string, items: seq<Choice>)
    ensures MatchChoice(text, items).Some? ==>
      Trim(text) != "" && Selects(Trim(text), items[MatchChoice(text, items).value])
      && forall k :: 0 <= k < MatchChoice(text, items).value ==> !Selects(Trim(text), items[k])
    ensures MatchChoice(text, items).None? ==>
      Trim(text) == "" || forall k :: 0 <= k < |items| ==> !Selects(Trim(text), items[k])
  {
  }

  /** The second "emotional burnout" category repeats the label and emoji of the first, so no text ever selects it. */
  lemma BurnoutBNeverChosen(text: string)
    ensures Categories()[7].key == "emotional_burnout_b"
    ensures MatchChoice(text, Categories()) != Some(7)
  {
    var c := Categories();
    assert c[3].caption == c[7].caption && c[3].emoji == c[7].emoji;
    assert Selects(Trim(text), c[3]) == Selects(Trim(text), c[7]);
    MatchChoiceFirst(text, c);
  }

  /** The Telegram message fields that hold content: its text ("" when absent) and which attachments it carries. */
  datatype Content = Content(text: string, media: set<string>)

  /** The attachment kinds the bot recognises, in the order it tests them. */
  const MediaKinds: seq<string> := ["voice", "video", "photo", "document", "sticker", "audio", "animation", "video_note"]

  /** A message's kind and the text logged for it. */
  datatype Detected = Detected(kind: string, text: string)

  /**
   * `detectMsgType(m)`: text wins; otherwise the first attachment kind in the fixed
   * priority order, logged as "[kind]"; otherwise "unknown".
   */
  function DetectMsgType(m: Content): (d: Detected)
    ensures d.kind == "text" <==> m.text != ""
    ensures m.text != "" ==> d.text == m.text
    ensures m.text == "" ==> d.text == "[" + d.kind + "]"
  {
    if m.text != "" then Detected("text", m.text)
    else match FirstWhere(kind => kind in m.media, MediaKinds, 0)
      case Some(k) => Detected(MediaKinds[k], "[" + MediaKinds[k] + "]")
      case None => Detected("unknown", "[unknown]")
  }

  /** Without text, the kind is the first recognised attachment in priority order, or "unknown" when there is none. */
  lemma DetectsMedia(m: Content)
    requires m.text == ""
    ensures DetectMsgType(m).kind == "unknown" <==> forall j :: 0 <= j < |MediaKinds| ==> MediaKinds[j] !in m.media
    ensures DetectMsgType(m).kind != "unknown" ==>
      exists k :: 0 <= k < |MediaKinds| && DetectMsgType(m).kind == MediaKinds[k] && MediaKinds[k] in m.media
        && forall j :: 0 <= j < k ==> MediaKinds[j] !in m.media
  {
  }

  /** `makeTopicTitle(clientId)`: the name of a client's forum topic. */
  function TopicTitle(clientId: int): (t: string)
    ensures StartsWith(t, "client_") && |t| > 7
  {
    "client_" + IntToString(clientId)
  }

  /** Distinct clients get distinct topic titles. */
  lemma TopicTitleInjective(a: int, b: int)
    requires TopicTitle(a) == TopicTitle(b)
    ensures a == b
  {
    assert TopicTitle(a)[7..] == IntToString(a);
    assert TopicTitle(b)[7..] == IntToString(b);
    IntToStringInjective(a, b);
  }

  /** The position of the first white space in `t`, or its length. */
  function FirstSpace(t: string, i: nat): (n: nat)
    requires i <= |t|
    ensures i <= n <= |t|
    decreases |t| - i
  {
    if i == |t| || IsSpace(t[i]) then i else FirstSpace(t, i + 1)
  }

  /** The position found holds white space, or is the end, and nothing from `i` up to it does. */
  lemma {:induction false} FirstSpaceShape(t: string, i: nat)
    requires i <= |t|
    ensures FirstSpace(t, i) < |t| ==> IsSpace(t[FirstSpace(t, i)])
    ensures forall k :: i <= k < FirstSpace(t, i) ==> !IsSpace(t[k])
    decreases |t| - i
  {
    if i < |t| && !IsSpace(t[i]) {
      FirstSpaceShape(t, i + 1);
    }
  }

  /**
   * The command word of an operator's message: "" for a blank text, else the first
   * word of the trimmed text (`text.split(/\s+/)[0]`; a trimmed text does not start
   * with white space, so the first piece is everything before the first white space).
   */
  function Command(text: string): string {
    var t := Trim(text);
    if t == "" then "" else t[..FirstSpace(t, 0)]
  }

  /** The command is the trimmed text's longest prefix without white space, and is empty only for a blank text. */
  lemma CommandIsFirstWord(text: string)
    ensures Command(text) == "" <==> Trim(text) == ""
    ensures |Command(text)| <= |Trim(text)| && Command(text) == Trim(text)[..|Command(text)|]
    ensures forall k :: 0 <= k < |Command(text)| ==> !IsSpace(Command(text)[k])
    ensures |Command(text)| < |Trim(text)| ==> IsSpace(Trim(text)[|Command(text)|])
  {
    var t := Trim(text);
    TrimShape(text);
    if t != "" {
      FirstSpaceShape(t, 0);
      assert !IsSpace(t[0]);
    }
  }

  /** `cmd === "/finish" || cmd.startsWith("/finish@")`: the command that ends a session (also when addressed to the bot by name). */
  predicate IsFinish(cmd: string) {
    cmd == "/finish" || StartsWith(cmd, "/finish@")
  }

  /** A trimmed text whose first word is "/finish" is the finish command. */
  lemma FinishCommand(s: string)
    requires |s| >= 7 && s[..7] == "/finish" && (|s| == 7 || IsSpace(s[7])) && !IsSpace(s[|s| - 1])
    ensures IsFinish(Command(s))
  {
    assert s[0] == '/' && s[1] == 'f' && s[2] == 'i' && s[3] == 'n' && s[4] == 'i' && s[5] == 's' && s[6] == 'h' by {
      assert s[..7][0] == '/';
    }
    assert FirstSpace(s, 7) == 7;
    assert FirstSpace(s, 6) == 7;
    assert FirstSpace(s, 5) == 7;
    assert FirstSpace(s, 4) == 7;
    assert FirstSpace(s, 3) == 7;
    assert FirstSpace(s, 2) == 7;
    assert FirstSpace(s, 1) == 7;
    assert FirstSpace(s, 0) == 7;
    TrimOfTrimmed(s);
    assert Command(s) == s[..7];
  }

  /** "/finish" followed by white space and anything else, or by nothing, is the finish command. */
  lemma FinishWithArguments(rest: string)
    requires rest == "" || (IsSpace(rest[0]) && !IsSpace(rest[|rest| - 1]))
    ensures IsFinish(Command("/finish" + rest))
  {
    var s := "/finish" + rest;
    assert s[..7] == "/finish";
    assert |s| == 7 || s[7] == rest[0];
    assert s[|s| - 1] == if rest == "" then 'h' else rest[|rest| - 1];
    FinishCommand(s);
  }

  /** The states a session's survey goes through; `state` in the sessions table holds their names. */
  datatype Step = Category | Name | Mood | MoodQ1 | MoodQ2 | MoodQ3 | Chat

  function StepName(s: Step): string {
    match s
    case Category => "CATEGORY"
    case Name => "NAME"
    case Mood => "MOOD"
    case MoodQ1 => "MOOD_Q1"
    case MoodQ2 => "MOOD_Q2"
    case MoodQ3 => "MOOD_Q3"
    case Chat => "CHAT"
  }

  /** The step a stored state names; any other text (including NULL, read as "") names none. */
  function ParseStep(s: string): (r: Option<Step>)
    ensures r.Some? ==> StepName(r.value) == s
  {
    if s == "CATEGORY" then Some(Category)
    else if s == "NAME" then Some(Name)
    else if s == "MOOD" then Some(Mood)
    else if s == "MOOD_Q1" then Some(MoodQ1)
    else if s == "MOOD_Q2" then Some(MoodQ2)
    else if s == "MOOD_Q3" then Some(MoodQ3)
    else if s == "CHAT" then Some(Chat)
    else None
  }

  /** Every step is stored under a name that reads back as that step. */
  lemma StepNameRoundTrip(s: Step)
    ensures ParseStep(StepName(s)) == Some(s)
  {
  }

  /** The step that follows an accepted answer. Free chat is the last step. */
  function Next(s: Step): Step {
    match s
    case Category => Name
    case Name => Mood
    case Mood => MoodQ1
    case MoodQ1 => MoodQ2
    case MoodQ2 => MoodQ3
    case MoodQ3 => Chat
    case Chat => Chat
  }

  /** The six survey steps, in the order they are asked (and the order of the exported survey sheet). */
  const SurveySteps: seq<Step> := [Category, Name, Mood, MoodQ1, MoodQ2, MoodQ3]

  /** Each survey step is followed by the next one in the list, and the last one by free chat. */
  lemma SurveyOrder()
    ensures forall k :: 0 <= k < |SurveySteps| - 1 ==> Next(SurveySteps[k]) == SurveySteps[k + 1]
    ensures Next(SurveySteps[|SurveySteps| - 1]) == Chat && Next(Chat) == Chat
    ensures Chat !in SurveySteps
  {
  }

  /**
   * Whether the handler for step `s` accepts the message text as an answer: a known
   * category, a non-blank name, a known mood, and any text at all (even blank) for the
   * three mood questions. Free chat never takes an answer.
   */
  predicate Accepts(s: Step, text: string) {
    match s
    case Category => MatchChoice(text, Categories()).Some?
    case Name => Trim(text) != ""
    case Mood => MatchChoice(text, Moods()).Some?
    case MoodQ1 => true
    case MoodQ2 => true
    case MoodQ3 => true
    case Chat => false
  }

  /** The state after one message answered in state `s`, when nothing fails. */
  function After(s: Step, text: string): (r: Step)
    ensures r == s || r == Next(s)
    ensures r == Next(s) && s != Chat <==> Accepts(s, text)
  {
    if Accepts(s, text) then Next(s) else s
  }

  /** The state after a run of messages, starting from `s`. */
  function Run(s: Step, texts: seq<string>): Step
    decreases |texts|
  {
    if texts == [] then s else Run(After(s, texts[0]), texts[1..])
  }

  /** Six accepted answers take a fresh session through the whole survey into free chat. */
  lemma {:induction false} SixAnswersReachChat(texts: seq<string>, k: nat)
    requires k + |texts| == 6 && |texts| >= 1
    requires forall i :: 0 <= i < |texts| ==> Accepts(SurveySteps[k + i], texts[i])
    ensures Run(SurveySteps[k], texts) == Chat
    decreases |texts|
  {
    var s := SurveySteps[k];
    SurveyOrder();
    assert s != Chat && Accepts(s, texts[0]);
    assert Run(s, texts) == Run(Next(s), texts[1..]);
    if |texts| == 1 {
      assert Next(s) == Chat;
    } else {
      assert Next(s) == SurveySteps[k + 1];
      forall i | 0 <= i < |texts| - 1 ensures Accepts(SurveySteps[k + 1 + i], texts[1..][i]) {
        assert texts[1..][i] == texts[i + 1];
      }
      SixAnswersReachChat(texts[1..], k + 1);
    }
  }

  /** The state never moves backwards: each message leaves it or moves it one step on. */
  function Rank(s: Step): nat {
    match s
    case Category => 0
    case Name => 1
    case Mood => 2
    case MoodQ1 => 3
    case MoodQ2 => 4
    case MoodQ3 => 5
    case Chat => 6
  }

  lemma {:induction false} RunMonotone(s: Step, texts: seq<string>)
    ensures Rank(s) <= Rank(Run(s, texts))
    ensures Rank(Run(s, texts)) <= Rank(s) + |texts|
    ensures s == Chat ==> Run(s, texts) == Chat
    decreases |texts|
  {
    if texts != [] {
      RunMonotone(After(s, texts[0]), texts[1..]);
    }
  }

  /** `(MOOD_QUESTIONS[moodKey] || [])[n] || ""`: the n-th follow-up question of a mood, or "". */
  function MoodQuestion(moodKey: string, n: nat): string {
    var qs := FollowUps(moodKey);
    if qs.Some? && n < |qs.value| then qs.value[n] else ""
  }
}
