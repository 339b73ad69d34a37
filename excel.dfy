/**
 * The spreadsheet side of an export (src/excel.js): the retention limits read from
 * the environment, the survey sheet built from a session row, the name an export
 * file is given, and the retention pass over the exports directory. Writing the
 * workbook and the file system calls themselves are left out: a directory listing
 * is a sequence of file names with their modification times.
 */
module Excel {
  import opened Wrappers
  import opened Text
  import opened Config
  import opened Survey
  import opened Store

  // ---------------------------------------------------------------- retention limits

  /** `Number(v || dflt)`, kept when it is a finite number above `floor`, and `dflt` otherwise. */
  function Limit(v: Option<string>, dflt: nat, floor: nat): (n: int)
    requires floor < dflt
    ensures n > floor
    ensures n == dflt || (v.Some? && v.value != "" && ToNumber(v.value) == Some(n))
    ensures v.Some? && v.value != "" && ToNumber(v.value).Some? && ToNumber(v.value).value > floor ==>
      n == ToNumber(v.value).value
  {
    var x := if v.None? || v.value == "" then Some(dflt as int) else ToNumber(v.value);
    if x.Some? && x.value > floor then x.value else dflt
  }

  /** `KEEP_TOTAL`: how many spreadsheets the exports directory keeps. */
  function KeepTotal(env: Env): int {
    Limit(Lookup(env, "EXPORTS_KEEP_TOTAL"), 200, 20)
  }

  /** `KEEP_LIVE_PER_SESSION`: how many live snapshots of one session are kept. */
  function KeepLive(env: Env): int {
    Limit(Lookup(env, "EXPORTS_KEEP_LIVE_PER_SESSION"), 30, 5)
  }

  /** Unset limits default to 200 files in all and 30 live snapshots per session. */
  lemma KeepDefaults(env: Env)
    requires "EXPORTS_KEEP_TOTAL" !in env && "EXPORTS_KEEP_LIVE_PER_SESSION" !in env
    ensures KeepTotal(env) == 200 && KeepLive(env) == 30
  {
  }

  /** A limit written as a numeral above its floor is used as written. */
  lemma {:induction false} KeepLimitsOfNumerals(env: Env, total: int, live: int)
    requires total > 20 && live > 5
    requires env == map["EXPORTS_KEEP_TOTAL" := IntToString(total), "EXPORTS_KEEP_LIVE_PER_SESSION" := IntToString(live)]
    ensures KeepTotal(env) == total && KeepLive(env) == live
  {
    ToNumberOfIntToString(total);
    ToNumberOfIntToString(live);
  }

  // ---------------------------------------------------------------- the survey sheet

  datatype SurveyRow = SurveyRow(step: string, question: string, answer: string)

  /** `session?.[k] ? String(session[k]) : ""`: a missing row, a missing column or a falsy value (NULL, 0, "") reads as "". */
  function Answer(session: Option<map<string, Cell>>, k: string): string {
    if session.None? || k !in session.value then ""
    else match session.value[k]
      case Null => ""
      case Num(n) => if n == 0 then "" else IntToString(n)
      case Str(s) => s
  }

  /** The session column that holds the answer given at a survey step. */
  function AnswerColumn(s: Step): string {
    match s
    case Category => "category_label"
    case Name => "display_name"
    case Mood => "mood_label"
    case MoodQ1 => "mood_q1"
    case MoodQ2 => "mood_q2"
    case MoodQ3 => "mood_q3"
    case Chat => ""
  }

  /**
   * `buildSurveyRows(session)`: one row per survey step, in the order they are
   * asked, holding the step's state name, the question asked and the stored answer.
   * The follow-up questions are those of the stored mood.
   */
  function BuildSurveyRows(session: Option<map<string, Cell>>): (rows: seq<SurveyRow>)
    ensures |rows| == |SurveySteps|
  {
    var moodKey := Answer(session, "mood_key");
    [ SurveyRow("CATEGORY", SurveyQCategory, Answer(session, "category_label")),
      SurveyRow("NAME", SurveyQNameShort, Answer(session, "display_name")),
      SurveyRow("MOOD", SurveyQMood, Answer(session, "mood_label")),
      SurveyRow("MOOD_Q1", MoodQuestion(moodKey, 0), Answer(session, "mood_q1")),
      SurveyRow("MOOD_Q2", MoodQuestion(moodKey, 1), Answer(session, "mood_q2")),
      SurveyRow("MOOD_Q3", MoodQuestion(moodKey, 2), Answer(session, "mood_q3")) ]
  }

  /** The sheet has a row per survey step, named after the step's state. */
  lemma SurveyRowsNamed(session: Option<map<string, Cell>>)
    ensures forall i :: 0 <= i < |SurveySteps| ==> BuildSurveyRows(session)[i].step == StepName(SurveySteps[i])
  {
  }

  /** The row of each survey step holds the answer stored in the step's column. */
  lemma SurveyRowsHoldAnswers(session: Option<map<string, Cell>>)
    ensures forall i :: 0 <= i < |SurveySteps| ==>
      BuildSurveyRows(session)[i].answer == Answer(session, AnswerColumn(SurveySteps[i]))
  {
  }

  /** The sheet asks the survey's three fixed questions, then the three follow-up questions of the stored mood. */
  lemma SurveyRowsAsk(session: Option<map<string, Cell>>)
    ensures BuildSurveyRows(session)[0].question == SurveyQCategory
    ensures BuildSurveyRows(session)[1].question == SurveyQNameShort
    ensures BuildSurveyRows(session)[2].question == SurveyQMood
    ensures BuildSurveyRows(session)[3].question == MoodQuestion(Answer(session, "mood_key"), 0)
    ensures BuildSurveyRows(session)[4].question == MoodQuestion(Answer(session, "mood_key"), 1)
    ensures BuildSurveyRows(session)[5].question == MoodQuestion(Answer(session, "mood_key"), 2)
  {
  }

  /** A session whose answer columns hold non-empty texts exports exactly those texts, with its mood's three questions. */
  lemma SurveyRowsOfAnswers(cols: map<string, Cell>, answers: seq<string>)
    requires |answers| == |SurveySteps|
    requires forall i :: 0 <= i < |answers| ==> AnswerColumn(SurveySteps[i]) in cols && cols[AnswerColumn(SurveySteps[i])] == Str(answers[i])
    requires "mood_key" in cols && cols["mood_key"].Str? && FollowUps(cols["mood_key"].s).Some?
    ensures forall i :: 0 <= i < |SurveySteps| ==> BuildSurveyRows(Some(cols))[i].answer == answers[i]
    ensures forall i :: 3 <= i < |SurveySteps| ==>
      BuildSurveyRows(Some(cols))[i].question == FollowUps(cols["mood_key"].s).value[i - 3]
  {
    var rows := BuildSurveyRows(Some(cols));
    SurveyRowsHoldAnswers(Some(cols));
    forall i | 0 <= i < |SurveySteps|
      ensures rows[i].answer == answers[i]
    {
      var c := AnswerColumn(SurveySteps[i]);
      assert c in cols && cols[c] == Str(answers[i]);
      assert Answer(Some(cols), c) == answers[i];
    }
    var key := cols["mood_key"].s;
    var qs := FollowUps(key).value;
    assert Answer(Some(cols), "mood_key") == key;
    SurveyRowsAsk(Some(cols));
    assert rows[3].question == qs[0] && rows[4].question == qs[1] && rows[5].question == qs[2];
  }

  // ---------------------------------------------------------------- file names

  /** `String(tag || "live").toLowerCase()`. */
  function ExportTag(tag: Option<string>): string {
    LowerAscii(if tag.None? || tag.value == "" then "live" else tag.value)
  }

  /** The name `exportSessionXlsx` writes to: one fixed name per session for the "start" and "end" exports, a time-stamped one otherwise. */
  function ExportFileName(clientId: int, sessionId: int, tag: Option<string>, ts: int): (name: string)
    ensures EndsWith(name, ".xlsx")
  {
    var t := ExportTag(tag);
    if t == "start" || t == "end" then t + "_" + IntToString(clientId) + "_" + IntToString(sessionId) + ".xlsx"
    else "live_" + IntToString(clientId) + "_" + IntToString(sessionId) + "_" + IntToString(ts) + ".xlsx"
  }

  /** The non-empty run of digits at the start of `s`, when a `sep` ends it, and what follows that `sep`. */
  function SplitDigits(s: string, sep: char): (r: Option<(string, string)>)
    ensures r.Some? ==> r.value.0 != [] && AllDigits(r.value.0) && s == r.value.0 + [sep] + r.value.1
  {
    var n := DigitRun(s, 0);
    if n > 0 && n < |s| && s[n] == sep then
      assert s == s[..n] + [sep] + s[n + 1..];
      Some((s[..n], s[n + 1..]))
    else None
  }

  /**
   * `name.match(/^live_(\d+)_(\d+)_\d+\.xlsx$/i)`: the client and session digits of
   * a live snapshot's name. A digit group ends where its run of digits ends, since
   * neither "_" nor "." is a digit.
   */
  function LiveKey(name: string): Option<(string, string)>
  {
    if |name| < 5 || LowerAscii(name[..5]) != "live_" then None
    else match SplitDigits(name[5..], '_')
      case None => None
      case Some((client, rest)) =>
        match SplitDigits(rest, '_')
        case None => None
        case Some((session, rest')) =>
          match SplitDigits(rest', '.')
          case None => None
          case Some((_, ext)) => if LowerAscii(ext) == "xlsx" then Some((client, session)) else None
  }

  lemma {:induction false} DigitRunOf(d: string, j: nat, k: nat)
    requires j + k <= |d|
    requires AllDigits(d[j..j + k])
    requires j + k == |d| || !IsDigit(d[j + k])
    ensures DigitRun(d, j) == k
    decreases k
  {
    if k > 0 {
      assert d[j..j + k][0] == d[j];
      assert d[j + 1..j + k] == d[j..j + k][1..];
      DigitRunOf(d, j + 1, k - 1);
    }
  }

  lemma SplitDigitsOf(a: string, sep: char, rest: string)
    requires a != [] && AllDigits(a) && !IsDigit(sep)
    ensures SplitDigits(a + [sep] + rest, sep) == Some((a, rest))
  {
    var s := a + [sep] + rest;
    assert s[0..|a|] == a && s[|a|] == sep;
    DigitRunOf(s, 0, |a|);
    assert s[..|a|] == a && s[|a| + 1..] == rest;
  }

  /** The pattern's reading of a name built from three runs of digits. */
  lemma LiveKeyOfParts(a: string, b: string, c: string)
    requires a != [] && AllDigits(a) && b != [] && AllDigits(b) && c != [] && AllDigits(c)
    ensures LiveKey("live_" + a + "_" + b + "_" + c + ".xlsx") == Some((a, b))
  {
    var name := "live_" + a + "_" + b + "_" + c + ".xlsx";
    var rest2 := c + ['.'] + "xlsx";
    var rest1 := b + ['_'] + rest2;
    assert name == "live_" + (a + ['_'] + rest1);
    assert name[..5] == "live_";
    assert name[5..] == a + ['_'] + rest1;
    assert LowerAscii("live_") == "live_";
    assert LowerAscii("xlsx") == "xlsx";
    SplitDigitsOf(a, '_', rest1);
    SplitDigitsOf(b, '_', rest2);
    SplitDigitsOf(c, '.', "xlsx");
  }

  /** A live snapshot's name is recognised by the retention pattern, with its own client and session. */
  lemma LiveNameKey(clientId: int, sessionId: int, tag: Option<string>, ts: int)
    requires clientId >= 0 && sessionId >= 0 && ts >= 0
    requires ExportTag(tag) != "start" && ExportTag(tag) != "end"
    ensures LiveKey(ExportFileName(clientId, sessionId, tag, ts)) == Some((IntToString(clientId), IntToString(sessionId)))
  {
    LiveKeyOfParts(IntToString(clientId), IntToString(sessionId), IntToString(ts));
  }

  /** The "start" and "end" exports never match the retention pattern, so the per-session pass never removes them. */
  lemma FixedNameNotLive(clientId: int, sessionId: int, tag: Option<string>, ts: int)
    requires ExportTag(tag) == "start" || ExportTag(tag) == "end"
    ensures LiveKey(ExportFileName(clientId, sessionId, tag, ts)).None?
  {
    var name := ExportFileName(clientId, sessionId, tag, ts);
    assert name[0] == ExportTag(tag)[0];
    assert LowerAscii(name[..5])[0] != 'l';
  }

  // ---------------------------------------------------------------- the retention pass

  /** A directory entry: its name and its modification time (0 when it could not be read). */
  datatype FileEntry = FileEntry(name: string, mtime: int)

  /** `f.toLowerCase().endsWith(".xlsx")`. */
  predicate IsXlsx(name: string) {
    EndsWith(LowerAscii(name), ".xlsx")
  }

  /** The spreadsheets of a listing, in listing order. */
  function Xlsx(listing: seq<FileEntry>): (r: seq<FileEntry>)
    ensures multiset(r) <= multiset(listing)
    ensures forall i :: 0 <= i < |r| ==> IsXlsx(r[i].name)
    ensures forall f :: f in listing && IsXlsx(f.name) ==> f in r
  {
    if listing == [] then []
    else
      assert listing == [listing[0]] + listing[1..];
      (if IsXlsx(listing[0].name) then [listing[0]] else []) + Xlsx(listing[1..])
  }

  predicate NewestFirst(s: seq<FileEntry>) {
    forall i, j :: 0 <= i < j < |s| ==> s[i].mtime >= s[j].mtime
  }

  /** Places `f` after the files strictly newer than it, so that files of the same age keep their order. */
  function Insert(f: FileEntry, s: seq<FileEntry>): (r: seq<FileEntry>)
    requires NewestFirst(s)
    ensures NewestFirst(r) && multiset(r) == multiset(s) + multiset{f}
    ensures |r| == |s| + 1 && (r[0] == f || (s != [] && r[0] == s[0]))
  {
    if s == [] || s[0].mtime <= f.mtime then [f] + s
    else
      var rest := Insert(f, s[1..]);
      assert s == [s[0]] + s[1..];
      assert multiset(s) == multiset{s[0]} + multiset(s[1..]);
      assert rest[0].mtime <= s[0].mtime;
      assert forall k :: 0 <= k < |rest| ==> rest[k].mtime <= s[0].mtime;
      [s[0]] + rest
  }

  /** `.sort((a, b) => b.mtime - a.mtime)`: newest first. */
  function SortNewest(s: seq<FileEntry>): (r: seq<FileEntry>)
    ensures NewestFirst(r) && multiset(r) == multiset(s)
  {
    if s == [] then []
    else
      assert s == [s[0]] + s[1..];
      Insert(s[0], SortNewest(s[1..]))
  }

  /** How many files of `s` are live snapshots of the session `key` names. */
  function CountKey(s: seq<FileEntry>, key: (string, string)): nat {
    if s == [] then 0
    else CountKey(s[..|s| - 1], key) + (if LiveKey(s[|s| - 1].name) == Some(key) then 1 else 0)
  }

  lemma {:induction false} CountKeyPrefix(s: seq<FileEntry>, n: nat, key: (string, string))
    requires n <= |s|
    ensures CountKey(s[..n], key) <= CountKey(s, key)
    decreases |s| - n
  {
    if n < |s| {
      assert s[..n + 1][..n] == s[..n];
      CountKeyPrefix(s, n + 1, key);
    } else {
      assert s[..n] == s;
    }
  }

  lemma {:induction false} CountKeyConcat(a: seq<FileEntry>, b: seq<FileEntry>, key: (string, string))
    ensures CountKey(a + b, key) == CountKey(a, key) + CountKey(b, key)
    decreases |b|
  {
    if b == [] {
      assert a + b == a;
    } else {
      assert (a + b)[..|a + b| - 1] == a + b[..|b| - 1];
      CountKeyConcat(a, b[..|b| - 1], key);
    }
  }

  lemma CountKeyAppend(s: seq<FileEntry>, f: FileEntry)
    ensures forall key :: CountKey(s + [f], key) == CountKey(s, key) + (if LiveKey(f.name) == Some(key) then 1 else 0)
  {
    assert (s + [f])[..|s|] == s;
  }

  /** One more file adds one to its own session's count. */
  lemma CountKeyAppendOne(s: seq<FileEntry>, f: FileEntry, key: (string, string))
    ensures CountKey(s + [f], key) == CountKey(s, key) + (if LiveKey(f.name) == Some(key) then 1 else 0)
  {
    assert (s + [f])[..|s|] == s;
  }

  /** The count does not depend on the order of the files. */
  lemma {:induction false} CountKeyPerm(a: seq<FileEntry>, b: seq<FileEntry>, key: (string, string))
    requires multiset(a) == multiset(b)
    ensures CountKey(a, key) == CountKey(b, key)
    decreases |a|
  {
    if a != [] {
      var x := a[|a| - 1];
      assert a == a[..|a| - 1] + [x];
      assert x in multiset(b);
      var i :| 0 <= i < |b| && b[i] == x;
      var b' := b[..i] + b[i + 1..];
      assert b == b[..i] + [x] + b[i + 1..];
      assert multiset(b') == multiset(b) - multiset{x};
      CountKeyPerm(a[..|a| - 1], b', key);
      CountKeyConcat(b[..i] + [x], b[i + 1..], key);
      CountKeyConcat(b[..i], b[i + 1..], key);
      CountKeyConcat(b[..i], [x], key);
    }
  }

  function Min(a: nat, b: nat): nat {
    if a <= b then a else b
  }

  /**
   * Whether the per-session pass removes `f` when `prefix` are the files before it:
   * `f` is a live snapshot and its session already has `keepLive` snapshots in `prefix`.
   */
  ghost predicate Excess(prefix: seq<FileEntry>, f: FileEntry, keepLive: nat) {
    LiveKey(f.name).Some? && CountKey(prefix, LiveKey(f.name).value) >= keepLive
  }

  /** The files of a newest-first listing that the per-session pass keeps: all but each group's `slice(keepLive)`. */
  ghost function KeptLive(s: seq<FileEntry>, keepLive: nat): seq<FileEntry> {
    if s == [] then []
    else
      var init := s[..|s| - 1];
      KeptLive(init, keepLive) + (if Excess(init, s[|s| - 1], keepLive) then [] else [s[|s| - 1]])
  }

  /** The files of a newest-first listing that the per-session pass removes. */
  ghost function PrunedLive(s: seq<FileEntry>, keepLive: nat): seq<FileEntry> {
    if s == [] then []
    else
      var init := s[..|s| - 1];
      PrunedLive(init, keepLive) + (if Excess(init, s[|s| - 1], keepLive) then [s[|s| - 1]] else [])
  }

  /** The pass keeps the `keepLive` newest snapshots of every session, or all of them when it has fewer. */
  lemma {:induction false} KeptLiveCount(s: seq<FileEntry>, keepLive: nat, key: (string, string))
    ensures CountKey(KeptLive(s, keepLive), key) == Min(CountKey(s, key), keepLive)
    decreases |s|
  {
    if s != [] {
      var init, x := s[..|s| - 1], s[|s| - 1];
      var kept, mine := KeptLive(init, keepLive), LiveKey(x.name) == Some(key);
      KeptLiveCount(init, keepLive, key);
      assert CountKey(s, key) == CountKey(init, key) + (if mine then 1 else 0);
      if Excess(init, x, keepLive) {
        assert KeptLive(s, keepLive) == kept + [] == kept;
        assert mine ==> CountKey(init, key) >= keepLive;
      } else {
        assert KeptLive(s, keepLive) == kept + [x];
        CountKeyAppendOne(kept, x, key);
        assert mine ==> CountKey(init, key) < keepLive;
      }
    }
  }

  /** The reference passes after one more file of the listing. */
  lemma LiveStep(files: seq<FileEntry>, i: nat, keepLive: nat)
    requires i < |files|
    ensures KeptLive(files[..i + 1], keepLive) == KeptLive(files[..i], keepLive) + (if Excess(files[..i], files[i], keepLive) then [] else [files[i]])
    ensures PrunedLive(files[..i + 1], keepLive) == PrunedLive(files[..i], keepLive) + (if Excess(files[..i], files[i], keepLive) then [files[i]] else [])
  {
    var s := files[..i + 1];
    assert s[..|s| - 1] == files[..i] && s[|s| - 1] == files[i];
  }

  /** The number of live snapshots seen so far for a session. */
  function Seen(byKey: map<(string, string), nat>, key: (string, string)): nat {
    if key in byKey then byKey[key] else 0
  }

  /** The tally after one more file: a live snapshot counts once more for its session. */
  function Bump(byKey: map<(string, string), nat>, f: FileEntry): map<(string, string), nat> {
    match LiveKey(f.name)
    case None => byKey
    case Some(key) => byKey[key := Seen(byKey, key) + 1]
  }

  /** Whether the per-session pass removes `f`, given the tally of the files before it. */
  predicate Surplus(byKey: map<(string, string), nat>, f: FileEntry, keepLive: nat) {
    LiveKey(f.name).Some? && Seen(byKey, LiveKey(f.name).value) >= keepLive
  }

  ghost predicate Tallied(files: seq<FileEntry>, i: nat, byKey: map<(string, string), nat>)
    requires i <= |files|
  {
    forall key :: Seen(byKey, key) == CountKey(files[..i], key)
  }

  ghost predicate WithinLimit(survivors: seq<FileEntry>, files: seq<FileEntry>, i: nat, keepLive: nat)
    requires i <= |files|
  {
    forall key :: CountKey(survivors, key) <= keepLive && CountKey(survivors, key) <= CountKey(files[..i], key)
  }

  ghost predicate Justified(pruned: seq<FileEntry>, files: seq<FileEntry>, i: nat, keepLive: nat)
    requires i <= |files|
  {
    forall j :: 0 <= j < |pruned| ==> LiveKey(pruned[j].name).Some? && CountKey(files[..i], LiveKey(pruned[j].name).value) > keepLive
  }

  lemma TalliedStep(files: seq<FileEntry>, i: nat, byKey: map<(string, string), nat>)
    requires i < |files| && Tallied(files, i, byKey)
    ensures Tallied(files, i + 1, Bump(byKey, files[i]))
  {
    assert files[..i + 1] == files[..i] + [files[i]];
    CountKeyAppend(files[..i], files[i]);
  }

  lemma WithinLimitStep(survivors: seq<FileEntry>, files: seq<FileEntry>, i: nat, byKey: map<(string, string), nat>, keepLive: nat)
    requires i < |files| && Tallied(files, i, byKey) && WithinLimit(survivors, files, i, keepLive)
    ensures Surplus(byKey, files[i], keepLive) ==> WithinLimit(survivors, files, i + 1, keepLive)
    ensures !Surplus(byKey, files[i], keepLive) ==> WithinLimit(survivors + [files[i]], files, i + 1, keepLive)
  {
    assert files[..i + 1] == files[..i] + [files[i]];
    CountKeyAppend(files[..i], files[i]);
    CountKeyAppend(survivors, files[i]);
  }

  lemma JustifiedStep(pruned: seq<FileEntry>, files: seq<FileEntry>, i: nat, keepLive: nat)
    requires i < |files| && Justified(pruned, files, i, keepLive)
    ensures Justified(pruned, files, i + 1, keepLive)
  {
    var prev, f := files[..i], files[i];
    assert files[..i + 1] == prev + [f];
    forall j | 0 <= j < |pruned|
      ensures CountKey(prev + [f], LiveKey(pruned[j].name).value) > keepLive
    {
      CountKeyAppendOne(prev, f, LiveKey(pruned[j].name).value);
    }
  }

  lemma JustifiedPrune(pruned: seq<FileEntry>, files: seq<FileEntry>, i: nat, keepLive: nat)
    requires i < |files| && Justified(pruned, files, i + 1, keepLive)
    requires LiveKey(files[i].name).Some? && CountKey(files[..i], LiveKey(files[i].name).value) >= keepLive
    ensures Justified(pruned + [files[i]], files, i + 1, keepLive)
  {
    var s, key := files[..i + 1], LiveKey(files[i].name).value;
    assert s[..i] == files[..i] && s[i] == files[i];
    assert CountKey(s, key) == CountKey(files[..i], key) + 1;
    JustifiedAppend(pruned, files, i + 1, files[i], keepLive);
  }

  lemma JustifiedAppend(pruned: seq<FileEntry>, files: seq<FileEntry>, n: nat, f: FileEntry, keepLive: nat)
    requires n <= |files| && Justified(pruned, files, n, keepLive)
    requires LiveKey(f.name).Some? && CountKey(files[..n], LiveKey(f.name).value) > keepLive
    ensures Justified(pruned + [f], files, n, keepLive)
  {
    var p := pruned + [f];
    assert forall j :: 0 <= j < |pruned| ==> p[j] == pruned[j];
    assert p[|pruned|] == f;
  }

  /** The survivors are newest first, and none is older than the files still to come. */
  ghost predicate Ordered(survivors: seq<FileEntry>, files: seq<FileEntry>, i: nat) {
    NewestFirst(survivors) && forall k, j :: 0 <= k < |survivors| && i <= j < |files| ==> survivors[k].mtime >= files[j].mtime
  }

  lemma OrderedStep(survivors: seq<FileEntry>, files: seq<FileEntry>, i: nat)
    requires NewestFirst(files) && i < |files| && Ordered(survivors, files, i)
    ensures Ordered(survivors, files, i + 1) && Ordered(survivors + [files[i]], files, i + 1)
  {
  }

  lemma PrefixStep(files: seq<FileEntry>, i: nat)
    requires i < |files|
    ensures multiset(files[..i + 1]) == multiset(files[..i]) + multiset{files[i]}
  {
    assert files[..i + 1] == files[..i] + [files[i]];
  }

  /** What the per-session pass knows after the first `i` files. */
  ghost predicate Pruning(files: seq<FileEntry>, i: nat, byKey: map<(string, string), nat>,
                          pruned: seq<FileEntry>, survivors: seq<FileEntry>, keepLive: nat)
    requires i <= |files|
  {
    && multiset(pruned) + multiset(survivors) == multiset(files[..i])
    && Tallied(files, i, byKey)
    && WithinLimit(survivors, files, i, keepLive)
    && Justified(pruned, files, i, keepLive)
    && Ordered(survivors, files, i)
    && Follows(files, i, pruned, survivors, keepLive)
  }

  /** The pass so far agrees with the reference definitions on the first `i` files. */
  ghost predicate Follows(files: seq<FileEntry>, i: nat, pruned: seq<FileEntry>, survivors: seq<FileEntry>, keepLive: nat)
    requires i <= |files|
  {
    survivors == KeptLive(files[..i], keepLive) && pruned == PrunedLive(files[..i], keepLive)
  }

  lemma FollowsStep(files: seq<FileEntry>, i: nat, byKey: map<(string, string), nat>,
                    pruned: seq<FileEntry>, survivors: seq<FileEntry>, keepLive: nat)
    requires i < |files| && Tallied(files, i, byKey) && Follows(files, i, pruned, survivors, keepLive)
    ensures Surplus(byKey, files[i], keepLive) ==> Follows(files, i + 1, pruned + [files[i]], survivors, keepLive)
    ensures !Surplus(byKey, files[i], keepLive) ==> Follows(files, i + 1, pruned, survivors + [files[i]], keepLive)
  {
    var f := files[i];
    LiveStep(files, i, keepLive);
    if LiveKey(f.name).Some? {
      assert Seen(byKey, LiveKey(f.name).value) == CountKey(files[..i], LiveKey(f.name).value);
    }
    assert Surplus(byKey, f, keepLive) == Excess(files[..i], f, keepLive);
  }

  /** One file more: a surplus live snapshot joins the removed files, any other file the survivors. */
  lemma PruneStep(files: seq<FileEntry>, i: nat, byKey: map<(string, string), nat>,
                  pruned: seq<FileEntry>, survivors: seq<FileEntry>, keepLive: nat)
    requires NewestFirst(files) && i < |files| && Pruning(files, i, byKey, pruned, survivors, keepLive)
    ensures Surplus(byKey, files[i], keepLive) ==>
      Pruning(files, i + 1, Bump(byKey, files[i]), pruned + [files[i]], survivors, keepLive)
    ensures !Surplus(byKey, files[i], keepLive) ==>
      Pruning(files, i + 1, Bump(byKey, files[i]), pruned, survivors + [files[i]], keepLive)
  {
    var f := files[i];
    PrefixStep(files, i);
    WithinLimitStep(survivors, files, i, byKey, keepLive);
    JustifiedStep(pruned, files, i, keepLive);
    TalliedStep(files, i, byKey);
    OrderedStep(survivors, files, i);
    FollowsStep(files, i, byKey, pruned, survivors, keepLive);
    if Surplus(byKey, f, keepLive) {
      assert Seen(byKey, LiveKey(f.name).value) == CountKey(files[..i], LiveKey(f.name).value);
      JustifiedPrune(pruned, files, i, keepLive);
    }
  }

  /**
   * The per-session pass of `cleanupExports` over the spreadsheets, newest first: a
   * live snapshot is removed when `keepLive` snapshots of its session came before it
   * (each group's `slice(keepLive)`); every other file survives, in order.
   */
  method PruneLive(files: seq<FileEntry>, keepLive: nat) returns (pruned: seq<FileEntry>, survivors: seq<FileEntry>)
    requires NewestFirst(files)
    ensures multiset(pruned) + multiset(survivors) == multiset(files)
    ensures NewestFirst(survivors)
    ensures forall key :: CountKey(survivors, key) <= keepLive
    ensures forall j :: 0 <= j < |pruned| ==> LiveKey(pruned[j].name).Some? && CountKey(files, LiveKey(pruned[j].name).value) > keepLive
    ensures survivors == KeptLive(files, keepLive) && pruned == PrunedLive(files, keepLive)
  {
    var byKey: map<(string, string), nat> := map[];
    pruned, survivors := [], [];
    var i := 0;
    PruneStart(files, keepLive);
    while i < |files|
      invariant i <= |files| && Pruning(files, i, byKey, pruned, survivors, keepLive)
    {
      var f := files[i];
      PruneStep(files, i, byKey, pruned, survivors, keepLive);
      if Surplus(byKey, f, keepLive) {
        pruned := pruned + [f];
      } else {
        survivors := survivors + [f];
      }
      byKey := Bump(byKey, f);
      i := i + 1;
    }
    PruneDone(files, byKey, pruned, survivors, keepLive);
  }

  /** Before the first file nothing is removed, kept or tallied. */
  lemma PruneStart(files: seq<FileEntry>, keepLive: nat)
    requires NewestFirst(files)
    ensures Pruning(files, 0, map[], [], [], keepLive)
  {
    assert files[..0] == [];
  }

  /** Once every file has been seen, the invariant is the pass's contract. */
  lemma PruneDone(files: seq<FileEntry>, byKey: map<(string, string), nat>,
                  pruned: seq<FileEntry>, survivors: seq<FileEntry>, keepLive: nat)
    requires Pruning(files, |files|, byKey, pruned, survivors, keepLive)
    ensures multiset(pruned) + multiset(survivors) == multiset(files)
    ensures NewestFirst(survivors)
    ensures forall key :: CountKey(survivors, key) <= keepLive
    ensures forall j :: 0 <= j < |pruned| ==> LiveKey(pruned[j].name).Some? && CountKey(files, LiveKey(pruned[j].name).value) > keepLive
    ensures survivors == KeptLive(files, keepLive) && pruned == PrunedLive(files, keepLive)
  {
    assert files[..|files|] == files;
  }

  /** The total pass: the `keepTotal` newest files stay, the rest are removed. */
  method CapTotal(files: seq<FileEntry>, keepTotal: nat) returns (capped: seq<FileEntry>, kept: seq<FileEntry>)
    requires NewestFirst(files)
    ensures files == kept + capped
    ensures NewestFirst(kept) && |kept| <= keepTotal
    ensures |files| <= keepTotal ==> capped == []
    ensures forall f, g :: f in capped && g in kept ==> g.mtime >= f.mtime
    ensures |kept| == Min(|files|, keepTotal)
  {
    if |files| > keepTotal {
      capped, kept := files[keepTotal..], files[..keepTotal];
    } else {
      capped, kept := [], files;
    }
    assert files == kept + capped;
    forall f, g | f in capped && g in kept
      ensures g.mtime >= f.mtime
    {
      var a :| 0 <= a < |capped| && capped[a] == f;
      var b :| 0 <= b < |kept| && kept[b] == g;
      assert files[|kept| + a] == f && files[b] == g;
    }
  }

  /**
   * `cleanupExports()` on a listing of the exports directory: the spreadsheets are
   * taken newest first, the per-session pass removes the surplus live snapshots,
   * then the total pass removes every spreadsheet after the `keepTotal` newest of
   * those left. Returns the files each pass removes and the spreadsheets left.
   */
  method CleanupExports(listing: seq<FileEntry>, keepLive: nat, keepTotal: nat)
    returns (pruned: seq<FileEntry>, capped: seq<FileEntry>, kept: seq<FileEntry>)
    ensures multiset(pruned) + multiset(capped) + multiset(kept) == multiset(Xlsx(listing))
    ensures NewestFirst(kept) && |kept| <= keepTotal
    ensures forall key :: CountKey(kept, key) <= keepLive
    ensures forall j :: 0 <= j < |pruned| ==> LiveKey(pruned[j].name).Some? && CountKey(Xlsx(listing), LiveKey(pruned[j].name).value) > keepLive
    ensures forall f, g :: f in capped && g in kept ==> g.mtime >= f.mtime
    ensures |Xlsx(listing)| <= keepTotal ==> capped == []
    ensures (forall key :: CountKey(Xlsx(listing), key) <= keepLive) ==> pruned == []
    ensures pruned == PrunedLive(SortNewest(Xlsx(listing)), keepLive)
    ensures kept + capped == KeptLive(SortNewest(Xlsx(listing)), keepLive)
    ensures |kept| == Min(|kept + capped|, keepTotal)
    ensures forall key :: CountKey(kept + capped, key) == Min(CountKey(Xlsx(listing), key), keepLive)
  {
    var xs := Xlsx(listing);
    var files := SortNewest(xs);
    var survivors;
    pruned, survivors := PruneLive(files, keepLive);
    capped, kept := CapTotal(survivors, keepTotal);
    CleanupSizes(xs, files, pruned, survivors, capped, kept, keepTotal);
    CleanupSessions(xs, files, pruned, survivors, capped, kept, keepLive);
  }

  /** The two passes remove and keep exactly the spreadsheets `xs` sorted into `files`. */
  lemma CleanupSizes(xs: seq<FileEntry>, files: seq<FileEntry>, pruned: seq<FileEntry>, survivors: seq<FileEntry>,
                     capped: seq<FileEntry>, kept: seq<FileEntry>, keepTotal: nat)
    requires multiset(files) == multiset(xs)
    requires multiset(pruned) + multiset(survivors) == multiset(files)
    requires survivors == kept + capped
    requires |survivors| <= keepTotal ==> capped == []
    ensures multiset(pruned) + multiset(capped) + multiset(kept) == multiset(xs)
    ensures |xs| <= keepTotal ==> capped == []
  {
    assert multiset(survivors) == multiset(kept) + multiset(capped);
    assert |survivors| == |multiset(survivors)| <= |multiset(files)| == |multiset(xs)| == |xs|;
  }

  /** What the two passes leave of each session of the spreadsheets `xs` sorted into `files`. */
  lemma CleanupSessions(xs: seq<FileEntry>, files: seq<FileEntry>, pruned: seq<FileEntry>, survivors: seq<FileEntry>,
                        capped: seq<FileEntry>, kept: seq<FileEntry>, keepLive: nat)
    requires multiset(files) == multiset(xs)
    requires multiset(pruned) + multiset(survivors) == multiset(files)
    requires forall j :: 0 <= j < |pruned| ==> LiveKey(pruned[j].name).Some? && CountKey(files, LiveKey(pruned[j].name).value) > keepLive
    requires survivors == KeptLive(files, keepLive)
    requires survivors == kept + capped
    ensures forall key :: CountKey(kept, key) <= keepLive
    ensures forall j :: 0 <= j < |pruned| ==> LiveKey(pruned[j].name).Some? && CountKey(xs, LiveKey(pruned[j].name).value) > keepLive
    ensures (forall key :: CountKey(xs, key) <= keepLive) ==> pruned == []
    ensures forall key :: CountKey(kept + capped, key) == Min(CountKey(xs, key), keepLive)
  {
    SessionCounts(xs, files, pruned, survivors, keepLive);
    PrefixCounts(survivors, kept, capped, keepLive);
  }

  /** What the per-session pass over the sorted listing means for the listing as the directory holds it. */
  lemma SessionCounts(xs: seq<FileEntry>, files: seq<FileEntry>, pruned: seq<FileEntry>, survivors: seq<FileEntry>, keepLive: nat)
    requires multiset(files) == multiset(xs)
    requires survivors == KeptLive(files, keepLive)
    requires forall j :: 0 <= j < |pruned| ==> LiveKey(pruned[j].name).Some? && CountKey(files, LiveKey(pruned[j].name).value) > keepLive
    ensures forall key :: CountKey(survivors, key) == Min(CountKey(xs, key), keepLive)
    ensures forall j :: 0 <= j < |pruned| ==> LiveKey(pruned[j].name).Some? && CountKey(xs, LiveKey(pruned[j].name).value) > keepLive
    ensures (forall key :: CountKey(xs, key) <= keepLive) ==> pruned == []
  {
    PermutedCounts(files, xs);
    forall key
      ensures CountKey(survivors, key) == Min(CountKey(xs, key), keepLive)
    {
      KeptLiveCount(files, keepLive, key);
    }
    if pruned != [] {
      var key := LiveKey(pruned[0].name).value;
      assert CountKey(xs, key) > keepLive;
    }
  }

  /** Keeping a prefix keeps every session within its bound. */
  lemma PrefixCounts(s: seq<FileEntry>, kept: seq<FileEntry>, rest: seq<FileEntry>, bound: nat)
    requires s == kept + rest
    requires forall key :: CountKey(s, key) <= bound
    ensures forall key :: CountKey(kept, key) <= bound
  {
    forall key
      ensures CountKey(kept, key) <= bound
    {
      CountKeyPrefix(s, |kept|, key);
      assert s[..|kept|] == kept;
    }
  }

  /** Reordering a listing changes neither its length nor any session's count. */
  lemma PermutedCounts(a: seq<FileEntry>, b: seq<FileEntry>)
    requires multiset(a) == multiset(b)
    ensures |a| == |b|
    ensures forall key :: CountKey(a, key) == CountKey(b, key)
  {
    forall key
      ensures CountKey(a, key) == CountKey(b, key)
    {
      CountKeyPerm(a, b, key);
    }
    assert |a| == |multiset(a)| == |multiset(b)| == |b|;
  }
}
