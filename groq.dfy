/** The retry loop of `groq_generate_content` (backend/app.py): up to `retries` calls
    to the chat-completion client, a sleep of `delay` seconds after a failure that is
    retried, `delay` doubling after every sleep, and two fixed messages when no call
    succeeds. The client is the sequence of per-attempt outcomes `outcome(0)`,
    `outcome(1)`, ...; the sleeps are returned instead of taken. */
module Groq {
  import opened Text

  /** What one call to the client gives: the completion text, or the message of the
      exception it raised. */
  datatype Attempt = Reply(text: string) | Failure(message: string)

  const Unable: string := "Unable to generate AI analysis"
  const ExhaustedMessage: string := Unable + " after multiple attempts"
  const DueToPrefix: string := Unable + " due to: "
  const RateLimitCode: string := "429"
  const RateLimitPhrase: string := "rate limit"

  /** Neither fixed failure text holds an opening brace. */
  lemma FailureTextsHaveNoBrace()
    ensures '{' !in ExhaustedMessage && '{' !in DueToPrefix
  {
    assert Unable == "Unable to generate" + " AI analysis";
    assert '{' !in "Unable to generate" && '{' !in " AI analysis";
    assert '{' !in " after multiple attempts";
    assert '{' !in " due to: ";
  }

  /** A failure is treated as rate limiting when its message holds `429`, or `rate
      limit` in any letter case. */
  predicate IsRateLimit(message: string) {
    Contains(message, RateLimitCode) || Contains(Lower(message), RateLimitPhrase)
  }

  /** What a run of the loop produces: the returned text, the sleeps taken in order, and
      the number of calls made to the client. */
  datatype Run = Run(text: string, sleeps: seq<real>, calls: nat)

  function Pow2(n: nat): real
  {
    if n == 0 then 1.0 else 2.0 * Pow2(n - 1)
  }

  /** The loop from attempt number `attempt` on, with `delay` the current delay. */
  function RunFrom(outcome: nat -> Attempt, attempt: nat, retries: int, delay: real): (r: Run)
    ensures attempt >= retries ==> r == Run(ExhaustedMessage, [], 0)
    ensures attempt < retries ==> 1 <= r.calls <= retries - attempt
    ensures |r.sleeps| <= r.calls
    ensures |r.sleeps| > 0 ==> r.sleeps[0] == delay
    ensures forall i :: 0 <= i < |r.sleeps| - 1 ==> r.sleeps[i + 1] == 2.0 * r.sleeps[i]
    decreases retries - attempt
  {
    if attempt >= retries then Run(ExhaustedMessage, [], 0)
    else match outcome(attempt)
      case Reply(text) => Run(text, [], 1)
      case Failure(message) =>
        if !IsRateLimit(message) && attempt == retries - 1 then Run(DueToPrefix + message, [], 1)
        else
          var rest := RunFrom(outcome, attempt + 1, retries, delay * 2.0);
          Run(rest.text, [delay] + rest.sleeps, rest.calls + 1)
  }

  /** The `i`-th sleep is `delay * 2^i` seconds. */
  lemma {:induction false} SleepsDouble(outcome: nat -> Attempt, attempt: nat, retries: int, delay: real, i: nat)
    requires i < |RunFrom(outcome, attempt, retries, delay).sleeps|
    ensures RunFrom(outcome, attempt, retries, delay).sleeps[i] == delay * Pow2(i)
  {
    if i > 0 {
      SleepsDouble(outcome, attempt, retries, delay, i - 1);
    }
  }

  /** `groq_generate_content(prompt, retries=retries, delay=delay)`. */
  function Generate(outcome: nat -> Attempt, retries: int, delay: real): (r: Run)
    ensures retries <= 0 ==> r == Run(ExhaustedMessage, [], 0)
    ensures retries > 0 ==> 1 <= r.calls <= retries
    ensures |r.sleeps| <= r.calls
    ensures |r.sleeps| > 0 ==> r.sleeps[0] == delay
  {
    RunFrom(outcome, 0, retries, delay)
  }

  /** The first successful call decides the text, and no call is made after it. */
  lemma {:induction false} FirstReplyWins(outcome: nat -> Attempt, attempt: nat, retries: int, delay: real, k: nat)
    requires attempt <= k < retries && outcome(k).Reply?
    requires forall j :: attempt <= j < k ==> outcome(j).Failure?
    ensures RunFrom(outcome, attempt, retries, delay).text == outcome(k).text
    ensures RunFrom(outcome, attempt, retries, delay).calls == k - attempt + 1
    ensures |RunFrom(outcome, attempt, retries, delay).sleeps| == k - attempt
    decreases k - attempt
  {
    if attempt < k {
      FirstReplyWins(outcome, attempt + 1, retries, delay * 2.0, k);
    }
  }

  /** When every call fails, all `retries` calls are made; the text is the "after multiple
      attempts" message when the last failure was rate limiting (its `continue` skips the
      last-attempt check) and the "due to" message otherwise. Every failure but a final
      non-rate-limit one is followed by a sleep. */
  lemma {:induction false} AllFail(outcome: nat -> Attempt, attempt: nat, retries: int, delay: real)
    requires attempt < retries
    requires forall j :: attempt <= j < retries ==> outcome(j).Failure?
    ensures var last := outcome(retries - 1).message;
            && RunFrom(outcome, attempt, retries, delay).text
               == (if IsRateLimit(last) then ExhaustedMessage else DueToPrefix + last)
            && RunFrom(outcome, attempt, retries, delay).calls == retries - attempt
            && |RunFrom(outcome, attempt, retries, delay).sleeps|
               == retries - attempt - (if IsRateLimit(last) then 0 else 1)
    decreases retries - attempt
  {
    if attempt < retries - 1 {
      AllFail(outcome, attempt + 1, retries, delay * 2.0);
    }
  }

  /** With no retries allowed, no call is made. */
  lemma NoRetriesNoCall(outcome: nat -> Attempt, retries: int, delay: real)
    requires retries <= 0
    ensures Generate(outcome, retries, delay) == Run(ExhaustedMessage, [], 0)
  {
  }

  /** What is done so far (`sleeps`, `calls`) followed by the run from here on gives
      the whole run. */
  predicate Continues(whole: Run, sleeps: seq<real>, calls: nat, rest: Run)
  {
    rest.text == whole.text && sleeps + rest.sleeps == whole.sleeps && calls + rest.calls == whole.calls
  }

  /** A failure that leaves attempts to go sleeps `delay` and hands on to the next
      attempt with the delay doubled. */
  lemma RetryStep(outcome: nat -> Attempt, attempt: nat, retries: int, delay: real,
                  whole: Run, sleeps: seq<real>, calls: nat)
    requires attempt < retries && outcome(attempt).Failure?
    requires IsRateLimit(outcome(attempt).message) || attempt != retries - 1
    requires Continues(whole, sleeps, calls, RunFrom(outcome, attempt, retries, delay))
    ensures Continues(whole, sleeps + [delay], calls + 1, RunFrom(outcome, attempt + 1, retries, delay * 2.0))
  {
    var rest := RunFrom(outcome, attempt + 1, retries, delay * 2.0);
    assert RunFrom(outcome, attempt, retries, delay) == Run(rest.text, [delay] + rest.sleeps, rest.calls + 1);
    assert sleeps + ([delay] + rest.sleeps) == (sleeps + [delay]) + rest.sleeps;
  }

  /** The loop stops with the text of the run when the run from here on makes one call
      and no sleep. */
  lemma LastCall(whole: Run, sleeps: seq<real>, calls: nat, rest: Run)
    requires Continues(whole, sleeps, calls, rest) && rest.sleeps == [] && rest.calls == 1
    ensures whole == Run(rest.text, sleeps, calls + 1)
  {
    assert sleeps + [] == sleeps;
  }

  /** The loop itself. `calls` counts the client calls made. */
  method GenerateContent(outcome: nat -> Attempt, retries: int, delay: real) returns (text: string, sleeps: seq<real>, calls: nat)
    ensures Run(text, sleeps, calls) == Generate(outcome, retries, delay)
  {
    ghost var whole := Generate(outcome, retries, delay);
    sleeps, calls := [], 0;
    var delayNow := delay;
    var attempt: nat := 0;
    while attempt < retries
      invariant calls == attempt
      invariant Continues(whole, sleeps, calls, RunFrom(outcome, attempt, retries, delayNow))
      decreases retries - attempt
    {
      match outcome(attempt) {
        case Reply(t) =>
          LastCall(whole, sleeps, calls, RunFrom(outcome, attempt, retries, delayNow));
          return t, sleeps, calls + 1;
        case Failure(message) =>
          if !IsRateLimit(message) && attempt == retries - 1 {
            LastCall(whole, sleeps, calls, RunFrom(outcome, attempt, retries, delayNow));
            return DueToPrefix + message, sleeps, calls + 1;
          }
          RetryStep(outcome, attempt, retries, delayNow, whole, sleeps, calls);
          sleeps := sleeps + [delayNow];
          delayNow := delayNow * 2.0;
      }
      calls := calls + 1;
      attempt := attempt + 1;
    }
    assert sleeps + [] == sleeps;
    text := ExhaustedMessage;
  }
}
