/**
 * The retry policy of the Bot API client (src/telegram.js): reading a rate-limit
 * hint out of an error reply, and the counted attempt loop of `callRaw`. The HTTP
 * exchange itself is an oracle: `attempt(i)` is what the i-th try of one call
 * produced (a network exception, or a reply that may or may not be JSON).
 */
module Telegram {
  import opened Wrappers
  import opened Text

  /** The decoded JSON body of a Bot API reply. `ok` is `json.ok === true`. */
  datatype ApiReply<R> = ApiReply(
    ok: bool,
    result: R,
    errorCode: Option<int>,
    description: Option<string>,
    retryAfter: Option<int>)  // parameters.retry_after

  /** What one try of a call produced: `fetch` threw, or a body that parsed as JSON (`Some`) or not (`None`). */
  datatype Attempt<R> = NetworkError | Answered(json: Option<ApiReply<R>>)

  /** How a call ended: it returned `json.result`, threw an `Error` with a message, or rethrew the network exception. */
  datatype CallOutcome<R> = Returned(result: R) | Failed(message: string) | NetworkFailure

  const RetryPattern: string := "retry after"
  const MaxAttempts: nat := 12

  /**
   * The digits captured by /retry after\s+(\d+)/i when a match starts at `i`:
   * "retry after" in any letter case, at least one white space, then the longest
   * run of digits (greedy `\s+` leaves no white space for `\d+` to skip).
   */
  function MatchAt(d: string, i: nat): (m: Option<string>)
    requires i <= |d|
    ensures m.Some? ==> m.value != [] && AllDigits(m.value)
  {
    var j := i + |RetryPattern|;
    if j <= |d| && LowerAscii(d[i..j]) == RetryPattern then
      var ws := SpaceRun(d, j);
      if ws >= 1 && j + ws < |d| && IsDigit(d[j + ws]) then
        Some(d[j + ws..j + ws + DigitRun(d, j + ws)])
      else None
    else None
  }

  /** `regex.exec(d)` from position `i` on: the position and capture of the leftmost match. */
  function FirstMatch(d: string, i: nat): (r: Option<(nat, string)>)
    requires i <= |d|
    ensures r.Some? ==> i <= r.value.0 <= |d| && MatchAt(d, r.value.0) == Some(r.value.1)
    ensures r.Some? ==> forall k :: i <= k < r.value.0 ==> MatchAt(d, k).None?
    ensures r.None? ==> forall k :: i <= k <= |d| ==> MatchAt(d, k).None?
    decreases |d| - i
  {
    match MatchAt(d, i)
    case Some(digits) => Some((i, digits))
    case None => if i == |d| then None else FirstMatch(d, i + 1)
  }

  /** `parseRetryAfter(json)`: a positive `parameters.retry_after`, else the positive number of the first "retry after N" in the description. */
  function ParseRetryAfter<R>(json: ApiReply<R>): (r: Option<int>)
    ensures r.Some? ==> r.value > 0
    ensures json.retryAfter.Some? && json.retryAfter.value > 0 ==> r == json.retryAfter
    ensures !(json.retryAfter.Some? && json.retryAfter.value > 0) ==>
      var d := if json.description.Some? then json.description.value else "";
      r.Some? <==> FirstMatch(d, 0).Some? && DigitsValue(FirstMatch(d, 0).value.1) > 0
    ensures !(json.retryAfter.Some? && json.retryAfter.value > 0) && r.Some? ==>
      var d := if json.description.Some? then json.description.value else "";
      r.value == DigitsValue(FirstMatch(d, 0).value.1)
  {
    if json.retryAfter.Some? && json.retryAfter.value > 0 then json.retryAfter
    else
      var d := if json.description.Some? then json.description.value else "";
      match FirstMatch(d, 0)
      case None => None
      case Some((_, digits)) =>
        var n := DigitsValue(digits);
        if n > 0 then Some(n) else None
  }

  /** The message of the error a failed reply raises: its description, or a generic text. */
  function Description<R>(json: Option<ApiReply<R>>): string {
    if json.Some? && json.value.description.Some? && json.value.description.value != "" then
      json.value.description.value
    else "Telegram API error"
  }

  /** The retry-after hint that makes a reply retryable: only a 429 reply carries one. */
  function RetryHint<R>(json: Option<ApiReply<R>>): (r: Option<int>)
    ensures r.Some? ==> json.Some? && json.value.errorCode == Some(429) && r.value > 0
    ensures json.Some? && json.value.errorCode == Some(429) ==> r == ParseRetryAfter(json.value)
  {
    if json.Some? && json.value.errorCode == Some(429) then ParseRetryAfter(json.value) else None
  }

  /** What try `i` of a call decides: end the call with an outcome, or sleep `wait` ms and try again. */
  datatype Decision<R> = Done(outcome: CallOutcome<R>) | Retry(wait: nat)

  /**
   * One pass of the loop body: a network exception is retried after 300 + 200*i ms
   * unless it is the last try; an ok reply returns its result; a 429 with a hint of
   * `ra` seconds is retried after (ra + 1) * 1000 ms; any other reply throws at once.
   */
  function Decide<R>(name: string, a: Attempt<R>, i: nat): Decision<R> {
    match a
    case NetworkError =>
      if i >= MaxAttempts - 1 then Done(NetworkFailure) else Retry(300 + i * 200)
    case Answered(json) =>
      if json.Some? && json.value.ok then Done(Returned(json.value.result))
      else match RetryHint(json)
        case Some(ra) => Retry((ra + 1) * 1000)
        case None => Done(Failed(name + ": " + Description(json)))
  }

  /** The outcome of `callRaw(name, ...)` from try `i` on, with the sleeps (in milliseconds) taken before it ended. */
  function CallFrom<R>(name: string, attempt: nat -> Attempt<R>, i: nat): (CallOutcome<R>, seq<nat>)
    requires i <= MaxAttempts
    decreases MaxAttempts - i
  {
    if i == MaxAttempts then (Failed(name + ": Telegram API error"), [])
    else match Decide(name, attempt(i), i)
      case Done(outcome) => (outcome, [])
      case Retry(w) =>
        var rest := CallFrom(name, attempt, i + 1);
        (rest.0, [w] + rest.1)
  }

  /** `callRaw(name, params)`: up to twelve tries of one Bot API call. */
  method CallRaw<R>(name: string, attempt: nat -> Attempt<R>) returns (outcome: CallOutcome<R>, waits: seq<nat>)
    ensures (outcome, waits) == CallFrom(name, attempt, 0)
  {
    waits := [];
    var i := 0;
    assert waits + CallFrom(name, attempt, 0).1 == CallFrom(name, attempt, 0).1;
    while i < MaxAttempts
      invariant 0 <= i <= MaxAttempts
      invariant CallFrom(name, attempt, 0).0 == CallFrom(name, attempt, i).0
      invariant CallFrom(name, attempt, 0).1 == waits + CallFrom(name, attempt, i).1
    {
      var d := Decide(name, attempt(i), i);
      if d.Done? {
        assert CallFrom(name, attempt, i) == (d.outcome, []);
        assert waits + [] == waits;
        return d.outcome, waits;
      }
      assert waits + CallFrom(name, attempt, i).1 == (waits + [d.wait]) + CallFrom(name, attempt, i + 1).1;
      waits := waits + [d.wait];
      i := i + 1;
    }
    assert waits + [] == waits;
    outcome := Failed(name + ": Telegram API error");
  }

  /**
   * What one try does to the call: an ok reply returns its result at once, a reply
   * with no retry hint fails at once with the API's description, a 429 with a hint
   * sleeps `(ra + 1) * 1000` ms and tries again, and a network error sleeps
   * `300 + 200 * i` ms and tries again unless the try was the last.
   */
  lemma TryOutcome<R>(name: string, a: nat -> Attempt<R>, i: nat)
    requires i < MaxAttempts
    ensures a(i).Answered? && a(i).json.Some? && a(i).json.value.ok ==>
      CallFrom(name, a, i) == (Returned(a(i).json.value.result), [])
    ensures a(i).Answered? && !(a(i).json.Some? && a(i).json.value.ok) && RetryHint(a(i).json).None? ==>
      CallFrom(name, a, i) == (Failed(name + ": " + Description(a(i).json)), [])
    ensures a(i).Answered? && !(a(i).json.Some? && a(i).json.value.ok) && RetryHint(a(i).json).Some? ==>
      CallFrom(name, a, i).1 == [(RetryHint(a(i).json).value + 1) * 1000] + CallFrom(name, a, i + 1).1
    ensures a(i).NetworkError? && i < MaxAttempts - 1 ==>
      CallFrom(name, a, i).1 == [300 + i * 200] + CallFrom(name, a, i + 1).1
    ensures a(i).NetworkError? && i == MaxAttempts - 1 ==> CallFrom(name, a, i) == (NetworkFailure, [])
  {
  }

  /** Only the first twelve tries matter: two transports that agree on them give the same outcome and sleeps. */
  lemma {:induction false} AtMostTwelveAttempts<R>(name: string, a: nat -> Attempt<R>, b: nat -> Attempt<R>, i: nat)
    requires i <= MaxAttempts
    requires forall k :: i <= k < MaxAttempts ==> a(k) == b(k)
    ensures CallFrom(name, a, i) == CallFrom(name, b, i)
    decreases MaxAttempts - i
  {
    if i < MaxAttempts {
      AtMostTwelveAttempts(name, a, b, i + 1);
    }
  }

  /** At most one sleep per try, and a call that returns or fails on a reply has slept only between retries. */
  lemma {:induction false} SleepsBounded<R>(name: string, a: nat -> Attempt<R>, i: nat)
    requires i <= MaxAttempts
    ensures |CallFrom(name, a, i).1| <= MaxAttempts - i
    ensures forall k :: 0 <= k < |CallFrom(name, a, i).1| ==> CallFrom(name, a, i).1[k] >= 300
    decreases MaxAttempts - i
  {
    if i < MaxAttempts {
      SleepsBounded(name, a, i + 1);
    }
  }

  /** A network that always throws is tried twelve times, sleeping 300, 500, ..., 2300 ms, and the exception escapes. */
  lemma {:induction false} NetworkDownGivesUp<R>(name: string, a: nat -> Attempt<R>, i: nat)
    requires i < MaxAttempts
    requires forall k :: i <= k < MaxAttempts ==> a(k).NetworkError?
    ensures CallFrom(name, a, i).0 == NetworkFailure
    ensures |CallFrom(name, a, i).1| == MaxAttempts - 1 - i
    ensures forall k :: 0 <= k < |CallFrom(name, a, i).1| ==> CallFrom(name, a, i).1[k] == 300 + (i + k) * 200
    decreases MaxAttempts - i
  {
    if i < MaxAttempts - 1 {
      NetworkDownGivesUp(name, a, i + 1);
    }
  }

  /** Twelve rate-limited replies that each carry a hint exhaust the loop: twelve sleeps, then the generic error. */
  lemma {:induction false} ThrottledGivesUp<R>(name: string, a: nat -> Attempt<R>, i: nat)
    requires i <= MaxAttempts
    requires forall k :: i <= k < MaxAttempts ==> a(k).Answered? && !(a(k).json.Some? && a(k).json.value.ok) && RetryHint(a(k).json).Some?
    ensures CallFrom(name, a, i).0 == Failed(name + ": Telegram API error")
    ensures |CallFrom(name, a, i).1| == MaxAttempts - i
    decreases MaxAttempts - i
  {
    if i < MaxAttempts {
      ThrottledGivesUp(name, a, i + 1);
    }
  }
}
