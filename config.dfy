/**
 * Process configuration (src/config.js): strict and list-valued numeric settings,
 * on/off flags, and the fixed survey tables. Labels, emoji and question texts are
 * English stand-ins for the Kazakh originals; only which of them are equal matters
 * to the bot's logic, and the stand-ins keep exactly the equalities of the source.
 */
module Config {
  import opened Wrappers
  import opened Text

  /** One answer button of a survey question: a category or a mood (`caption` is the source's `label`). */
  datatype Choice = Choice(key: string, caption: string, emoji: string)

  function Categories(): seq<Choice> {
    [
      Choice("bullying", "Bullying", "E:people-holding-hands"),
      Choice("cyberbullying", "Cyberbullying", "E:laptop"),
      Choice("domestic_violence", "Domestic violence", "E:house"),
      Choice("emotional_burnout_a", "Emotional burnout", "E:exhaling-face"),
      Choice("law_prevention", "Preventing offences", "E:scales"),
      Choice("anxious_thoughts", "Anxious thoughts", "E:thought-balloon"),
      Choice("stress", "Stress and distress", "E:rain-cloud"),
      Choice("emotional_burnout_b", "Emotional burnout", "E:exhaling-face"),
      Choice("self_esteem", "Self-esteem problems", "E:mirror"),
      Choice("fear_anxiety", "Fear and dread", "E:anxious-face"),
      Choice("depressive_mood", "Depressive mood", "E:new-moon"),
      Choice("family_issues", "Family problems", "E:family"),
      Choice("teen_support", "Psychological support for teenagers", "E:child"),
      Choice("other", "Other psychological questions", "E:question-mark")
    ]
  }

  function Moods(): seq<Choice> {
    [
      Choice("bad", "Bad", "E:rain-cloud"),
      Choice("mid", "Average", "E:sun-behind-cloud"),
      Choice("good", "Good", "E:sun"),
      Choice("great", "Great", "E:glowing-star")
    ]
  }

  /** `MOOD_QUESTIONS[key]`: the three follow-up questions asked after a mood, none for a key that is not a mood's. */
  function FollowUps(key: string): (r: Option<seq<string>>)
    ensures r.Some? ==> |r.value| == 3
  {
    if key == "bad" then Some([
      "What is troubling you most right now?",
      "Have your sleep or appetite changed?",
      "Is there someone supporting you right now?"])
    else if key == "mid" then Some([
      "What has affected your mood lately?",
      "How are you coping with stress?",
      "Would you like to talk to a psychologist?"])
    else if key == "good" then Some([
      "What helps you feel good?",
      "In which area would you like support or advice?",
      "Would you like to receive useful materials?"])
    else if key == "great" then Some([
      "What makes you happy right now?",
      "Which topics interest you for your own growth?",
      "Would you like to receive motivational content?"])
    else None
  }

  const SurveyQCategory: string := "Choose a category"
  const SurveyQName: string := "Hello! How should we address you?\nWrite your name, and we will call you that"
  const SurveyQNameShort: string := "Hello! How should we address you?"
  const SurveyQMood: string := "Thank you\nNow please rate how you feel"
  const BotDescription: string := "If you feel down, afraid, or want to talk to someone, we are here. Safe, confidential and free."

  /** The keys with follow-up questions are exactly the moods' keys, and each has three. */
  lemma FollowUpsOfMoods(key: string)
    ensures FollowUps(key).Some? <==> exists i :: 0 <= i < |Moods()| && Moods()[i].key == key
  {
    var m := Moods();
    if key == "bad" {
      assert m[0].key == key;
    } else if key == "mid" {
      assert m[1].key == key;
    } else if key == "good" {
      assert m[2].key == key;
    } else if key == "great" {
      assert m[3].key == key;
    } else {
      assert FollowUps(key).None?;
      assert forall i :: 0 <= i < |m| ==> m[i].key != key;
    }
  }

  /** The environment of the process: `process.env`. */
  type Env = map<string, string>

  function Lookup(env: Env, name: string): Option<string> {
    if name in env then Some(env[name]) else None
  }

  /** `parseIntStrict(v, name)`: the number `v` denotes, or an error naming the setting. */
  function ParseIntStrict(v: Option<string>, name: string): (r: Result<int, string>)
    ensures r.Err? <==> v.None? || ToNumber(v.value).None?
    ensures r.Ok? ==> ToNumber(v.value) == Some(r.value)
    ensures r.Err? ==> r.error == name + " is required and must be a number"
  {
    if v.None? then Err(name + " is required and must be a number")
    else match ToNumber(v.value)
      case Some(n) => Ok(n)
      case None => Err(name + " is required and must be a number")
  }

  /** A setting written as the numeral of an integer is read back as that integer. */
  lemma {:induction false} ParseIntStrictOfNumeral(n: int, name: string)
    ensures ParseIntStrict(Some(IntToString(n)), name) == Ok(n)
  {
    ToNumberOfIntToString(n);
  }

  /** The numbers of the fields that denote finite numbers, in order. */
  function NumericFields(fields: seq<string>): (r: seq<int>)
    ensures |r| <= |fields|
    ensures |r| == |fields| <==> forall i :: 0 <= i < |fields| ==> ToNumber(Trim(fields[i])).Some?
    ensures r == [] <==> forall i :: 0 <= i < |fields| ==> ToNumber(Trim(fields[i])).None?
  {
    if fields == [] then []
    else
      (match ToNumber(Trim(fields[0])) case Some(n) => [n] case None => [])
      + NumericFields(fields[1..])
  }

  /** One field gives its number when it denotes one, and nothing otherwise. */
  lemma NumericFieldsOne(f: string)
    ensures ToNumber(Trim(f)).Some? ==> NumericFields([f]) == [ToNumber(Trim(f)).value]
    ensures ToNumber(Trim(f)).None? ==> NumericFields([f]) == []
  {
    assert [f][1..] == [];
  }

  /** Fields are read one by one and their numbers kept in order: with `NumericFieldsOne` this is `filter` after `map`. */
  lemma {:induction false} NumericFieldsAppend(a: seq<string>, b: seq<string>)
    ensures NumericFields(a + b) == NumericFields(a) + NumericFields(b)
    decreases |a|
  {
    if a == [] {
      assert a + b == b;
    } else {
      assert (a + b)[0] == a[0] && (a + b)[1..] == a[1..] + b;
      NumericFieldsAppend(a[1..], b);
    }
  }

  /** `parseCsvInts(v)`: nothing for an unset or empty value, else the numeric comma-separated entries in order. */
  function ParseCsvInts(v: Option<string>): (r: seq<int>)
    ensures v.None? || v.value == "" ==> r == []
    ensures v.Some? && v.value != "" ==> |r| <= |Split(v.value, ',')|
    ensures v.Some? && v.value != "" ==> r == NumericFields(Split(v.value, ','))
  {
    if v.None? || v.value == "" then [] else NumericFields(Split(v.value, ','))
  }

  function Numerals(ns: seq<int>): (r: seq<string>)
    ensures |r| == |ns|
    ensures forall i :: 0 <= i < |ns| ==> r[i] == IntToString(ns[i])
  {
    if ns == [] then [] else [IntToString(ns[0])] + Numerals(ns[1..])
  }

  lemma {:induction false} NumericFieldsOfNumerals(ns: seq<int>)
    ensures NumericFields(Numerals(ns)) == ns
  {
    if ns != [] {
      var fs := Numerals(ns);
      assert fs[0] == IntToString(ns[0]);
      TrimOfNumeral(ns[0]);
      ToNumberOfIntToString(ns[0]);
      assert ToNumber(Trim(fs[0])) == Some(ns[0]);
      assert fs[1..] == Numerals(ns[1..]);
      NumericFieldsOfNumerals(ns[1..]);
      assert NumericFields(fs) == [ns[0]] + NumericFields(fs[1..]);
    }
  }

  /** A non-empty list of integers written with commas between them is read back unchanged. */
  lemma {:induction false} ParseCsvIntsRoundTrip(ns: seq<int>)
    requires |ns| >= 1
    ensures ParseCsvInts(Some(Join(Numerals(ns), ','))) == ns
  {
    var parts := Numerals(ns);
    forall i | 0 <= i < |parts| ensures ',' !in parts[i] {
      var s := parts[i];
      assert forall j :: 0 <= j < |s| ==> s[j] != ',';
    }
    SplitJoin(parts, ',');
    var joined := Join(parts, ',');
    assert joined != "" by {
      JoinNonEmpty(parts, ',');
    }
    NumericFieldsOfNumerals(ns);
  }

  lemma {:induction false} JoinNonEmpty(parts: seq<string>, sep: char)
    requires |parts| >= 1 && parts[0] != []
    ensures Join(parts, sep) != []
  {
    if |parts| > 1 {
      assert Join(parts, sep) == parts[0] + [sep] + Join(parts[1..], sep);
    }
  }

  /** `String(v || "0") === "1"`: a flag is on only for the exact text "1". */
  function Flag(v: Option<string>): (on: bool)
    ensures on <==> v == Some("1")
  {
    var s := if v.None? || v.value == "" then "0" else v.value;
    s == "1"
  }

  /** `process.env.BOT_TOKEN || process.env.TELEGRAM_BOT_TOKEN`: the first of the two that is set and non-empty. */
  function BotToken(env: Env): (r: Option<string>)
    ensures r.Some? ==> r.value != ""
    ensures r.None? <==> Lookup(env, "BOT_TOKEN") in {None, Some("")} && Lookup(env, "TELEGRAM_BOT_TOKEN") in {None, Some("")}
    ensures Lookup(env, "BOT_TOKEN").Some? && Lookup(env, "BOT_TOKEN") != Some("") ==> r == Lookup(env, "BOT_TOKEN")
  {
    if "BOT_TOKEN" in env && env["BOT_TOKEN"] != "" then Some(env["BOT_TOKEN"])
    else if "TELEGRAM_BOT_TOKEN" in env && env["TELEGRAM_BOT_TOKEN"] != "" then Some(env["TELEGRAM_BOT_TOKEN"])
    else None
  }

  datatype Settings = Settings(
    botToken: string,
    adminGroupId: int,
    operatorIds: seq<int>,
    dropPendingUpdates: bool,
    sendExcelToTelegram: bool)

  /** Loading the module: fails without a bot token, then without a numeric admin group id. */
  function LoadSettings(env: Env): (r: Result<Settings, string>)
    ensures BotToken(env).None? ==> r == Err("BOT_TOKEN is required")
    ensures BotToken(env).Some? && ParseIntStrict(Lookup(env, "ADMIN_GROUP_ID"), "ADMIN_GROUP_ID").Err? ==> r.Err?
    ensures BotToken(env).Some? && ParseIntStrict(Lookup(env, "ADMIN_GROUP_ID"), "ADMIN_GROUP_ID").Err? ==>
      r == Err("ADMIN_GROUP_ID" + " is required and must be a number")
    ensures BotToken(env).Some? && ParseIntStrict(Lookup(env, "ADMIN_GROUP_ID"), "ADMIN_GROUP_ID").Ok? ==>
      && r.Ok?
      && r.value.botToken == BotToken(env).value
      && r.value.adminGroupId == ParseIntStrict(Lookup(env, "ADMIN_GROUP_ID"), "ADMIN_GROUP_ID").value
    ensures r.Ok? ==>
      && r.value.botToken != ""
      && "ADMIN_GROUP_ID" in env && Some(r.value.adminGroupId) == ToNumber(env["ADMIN_GROUP_ID"])
      && r.value.operatorIds == ParseCsvInts(Lookup(env, "OPERATOR_IDS"))
      && (r.value.dropPendingUpdates <==> Lookup(env, "DROP_PENDING_UPDATES") == Some("1"))
      && (r.value.sendExcelToTelegram <==> Lookup(env, "SEND_EXCEL_TO_TELEGRAM") == Some("1"))
  {
    match BotToken(env)
    case None => Err("BOT_TOKEN is required")
    case Some(token) =>
      match ParseIntStrict(Lookup(env, "ADMIN_GROUP_ID"), "ADMIN_GROUP_ID")
      case Err(e) => Err(e)
      case Ok(admin) =>
        Ok(Settings(token, admin, ParseCsvInts(Lookup(env, "OPERATOR_IDS")),
          Flag(Lookup(env, "DROP_PENDING_UPDATES")), Flag(Lookup(env, "SEND_EXCEL_TO_TELEGRAM"))))
  }
}
