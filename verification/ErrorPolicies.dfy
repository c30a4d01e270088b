/** Error policies as functions of (error, attempt, state), and the shipped combinators. */
module ErrorPolicies {
  import opened Wrappers

  datatype Decision = RetryIn(delayMs: real) | Stop

  /** A policy may itself throw; otherwise it decides and hands back its state slot. */
  datatype PolicyResult<+P> = Threw | Decided(decision: Decision, state: Option<P>)

  /** The slot starts as None; `attempt` counts from 1. */
  type Policy<!Err, !P> = (Err, nat, Option<P>) -> PolicyResult<P>

  function Pow2(n: nat): real { if n == 0 then 1.0 else 2.0 * Pow2(n - 1) }

  function MinReal(a: real, b: real): real { if a <= b then a else b }

  function MinNat(a: nat, b: nat): nat { if a <= b then a else b }

  /** `base * 2 ** exponent`. */
  function Doubled(base: real, exponent: nat): real { base * Pow2(exponent) }

  /** `min(cap, base * 2 ** min(attempt - 1, clamp))`. */
  function ExponentialDelay(base: real, cap: real, attempt: nat, clamp: nat): real {
    MinReal(cap, Doubled(base, MinNat(if attempt == 0 then 0 else attempt - 1, clamp)))
  }

  /** `exponentialBackoff` without jitter; None where it throws a RangeError. */
  function ExponentialBackoff<Err, P>(base: real, cap: real): Option<Policy<Err, P>> {
    if base < 0.0 || cap < 0.0 then None
    else Some((err: Err, attempt: nat, state: Option<P>) => Decided(RetryIn(ExponentialDelay(base, cap, attempt, 30)), None))
  }

  /** `min(cap, step * attempt)`. */
  function LinearDelay(step: real, cap: real, attempt: nat): real { MinReal(cap, step * attempt as real) }

  /** `linearBackoff`. */
  function LinearBackoff<Err, P>(step: real, cap: real): Option<Policy<Err, P>> {
    if step < 0.0 || cap < 0.0 then None
    else Some((err: Err, attempt: nat, state: Option<P>) => Decided(RetryIn(LinearDelay(step, cap, attempt)), None))
  }

  /** `retryUpTo`: past the limit it stops and keeps the state it was given. */
  function RetryUpTo<Err, P>(max: int, inner: Policy<Err, P>): Option<Policy<Err, P>> {
    if max < 1 then None
    else Some((err: Err, attempt: nat, state: Option<P>) => if attempt > max then Decided(Stop, state) else inner(err, attempt, state))
  }

  /** `DEFAULT_ERROR_POLICY`, with its own exponent clamp. */
  function DefaultPolicy<Err, P>(): Policy<Err, P> {
    (err: Err, attempt: nat, state: Option<P>) => Decided(RetryIn(ExponentialDelay(100.0, 30000.0, attempt, 20)), None)
  }

  // ---------------------------------------------------------------- combinators

  /** Nested limits are one limit, the smaller, in decision and in state. */
  lemma NestedLimits<Err, P>(m: int, n: int, inner: Policy<Err, P>, err: Err, attempt: nat, state: Option<P>)
    requires m >= 1 && n >= 1
    ensures RetryUpTo(m, RetryUpTo(n, inner).value).value(err, attempt, state)
            == RetryUpTo(if m <= n then m else n, inner).value(err, attempt, state)
  {
  }

  lemma {:induction false} Pow2Grows(i: nat, j: nat)
    requires i <= j
    ensures 1.0 <= Pow2(i) <= Pow2(j)
  {
    if i < j {
      Pow2Grows(i, j - 1);
    } else if i > 0 {
      Pow2Grows(i - 1, i - 1);
    }
  }

  lemma Scaled(base: real, a: real, b: real)
    requires base >= 0.0 && a <= b
    ensures base * a <= base * b
  {
  }

  /** Exponential delays never shrink from one attempt to a later one and never exceed the cap. */
  lemma ExponentialMonotone(base: real, cap: real, clamp: nat, i: nat, j: nat)
    requires base >= 0.0 && cap >= 0.0 && i <= j
    ensures 0.0 <= ExponentialDelay(base, cap, i, clamp) <= ExponentialDelay(base, cap, j, clamp) <= cap
  {
    var a, b := MinNat(if i == 0 then 0 else i - 1, clamp), MinNat(if j == 0 then 0 else j - 1, clamp);
    Scaled(base, 0.0, 1.0);
    if a < b {
      DoubledGrows(base, a, b);
    } else {
      Pow2Grows(0, a);
      Scaled(base, 0.0, Pow2(a));
    }
  }

  /** Neither do those of a linear backoff. */
  lemma LinearMonotone<Err, P>(step: real, cap: real, err: Err, state: Option<P>, i: nat, j: nat)
    requires LinearBackoff<Err, P>(step, cap).Some? && i <= j
    ensures var policy := LinearBackoff<Err, P>(step, cap).value;
      0.0 <= policy(err, i, state).decision.delayMs <= policy(err, j, state).decision.delayMs <= cap
  {
    Scaled(step, 0.0, i as real);
    Scaled(step, i as real, j as real);
  }

  /**
   The delays of `exponentialBackoff`: the first is `base`, each of the next thirty is twice the one
   before, the cap comes on top, and from the thirty-first on they stay.
   */
  lemma ExponentialDoubles<Err, P>(base: real, cap: real, err: Err, state: Option<P>, attempt: nat)
    requires attempt >= 1
    ensures ExponentialBackoff<Err, P>(base, cap).Some? <==> base >= 0.0 && cap >= 0.0
    ensures ExponentialBackoff<Err, P>(base, cap).Some? ==>
      var policy := ExponentialBackoff<Err, P>(base, cap).value;
      && policy(err, 1, state).decision == RetryIn(MinReal(cap, base))
      && policy(err, attempt + 1, state).decision ==
           RetryIn(if attempt <= 30 then MinReal(cap, 2.0 * policy(err, attempt, state).decision.delayMs)
                   else policy(err, attempt, state).decision.delayMs)
  {
    if base >= 0.0 && cap >= 0.0 && attempt <= 30 {
      Pow2Grows(0, attempt - 1);
      Scaled(base, 0.0, Pow2(attempt - 1));
      assert Doubled(base, attempt) == base * (2.0 * Pow2(attempt - 1)) == 2.0 * Doubled(base, attempt - 1);
    }
  }

  /** The delays of `linearBackoff`: `step` more each time, under the cap. */
  lemma LinearAdds<Err, P>(step: real, cap: real, err: Err, state: Option<P>, attempt: nat)
    requires attempt >= 1
    ensures LinearBackoff<Err, P>(step, cap).Some? <==> step >= 0.0 && cap >= 0.0
    ensures LinearBackoff<Err, P>(step, cap).Some? ==>
      var policy := LinearBackoff<Err, P>(step, cap).value;
      && policy(err, 1, state).decision == RetryIn(MinReal(cap, step))
      && policy(err, attempt + 1, state).decision == RetryIn(MinReal(cap, policy(err, attempt, state).decision.delayMs + step))
  {
    if step >= 0.0 && cap >= 0.0 {
      assert step * ((attempt + 1) as real) == step * (attempt as real) + step;
    }
  }

  /** `retryUpTo` takes limits from 1 on, asks the inner policy up to the limit, and stops beyond it with the slot as it was. */
  lemma LimitStops<Err, P>(max: int, inner: Policy<Err, P>, err: Err, attempt: nat, state: Option<P>)
    ensures RetryUpTo(max, inner).Some? <==> max >= 1
    ensures RetryUpTo(max, inner).Some? ==>
      RetryUpTo(max, inner).value(err, attempt, state) == if attempt <= max then inner(err, attempt, state) else Decided(Stop, state)
  {
  }

  /** A clamp changes nothing exactly when it is not reached, or the cap or a zero base hides it. */
  lemma ClampHarmlessIff(base: real, cap: real, attempt: nat, clamp: nat)
    requires base >= 0.0 && cap >= 0.0 && attempt >= 1
    ensures ExponentialDelay(base, cap, attempt, clamp) == MinReal(cap, Doubled(base, attempt - 1))
            <==> attempt - 1 <= clamp || cap <= Doubled(base, clamp) || base == 0.0
  {
    if attempt - 1 > clamp {
      DoubledGrows(base, clamp, attempt - 1);
    }
  }

  /** A positive base grows strictly, a zero base not at all. */
  lemma DoubledGrows(base: real, i: nat, j: nat)
    requires base >= 0.0 && i < j
    ensures if base == 0.0 then Doubled(base, i) == Doubled(base, j) == 0.0 else 0.0 < Doubled(base, i) < Doubled(base, j)
  {
    Pow2Grows(0, i);
    Pow2Grows(i, j - 1);
    if base > 0.0 {
      StrictlyScaled(base, Pow2(i), Pow2(j));
      StrictlyScaled(base, 0.0, Pow2(i));
    }
  }

  lemma StrictlyScaled(base: real, a: real, b: real)
    requires base > 0.0 && a < b
    ensures base * a < base * b
  {
  }

  /** The default policy is `exponentialBackoff(100, 30000)` at every attempt, though one clamps at 20 and the other at 30. */
  lemma DefaultIsExponential<Err, P>(err: Err, attempt: nat, state: Option<P>)
    requires attempt >= 1
    ensures DefaultPolicy<Err, P>()(err, attempt, state) == ExponentialBackoff<Err, P>(100.0, 30000.0).value(err, attempt, state)
  {
    Pow2Grows(9, 20);
    Pow2Grows(9, 30);
    assert Pow2(9) == 512.0 by {
      assert Pow2(3) == 8.0;
      assert Pow2(6) == 64.0;
    }
    ClampHarmlessIff(100.0, 30000.0, attempt, 20);
    ClampHarmlessIff(100.0, 30000.0, attempt, 30);
  }

  // ---------------------------------------------------------------- the retry loop

  datatype Outcome<+Err> = Returns | Throws(err: Err)

  datatype RunResult = RunResult(ok: bool, runs: nat, aborted: bool)

  /** What one attempt leads to. */
  datatype Attempted<+P> = Succeeded | GaveUp | Retry(state: Option<P>)

  /** A throwing policy counts as a stop. */
  function AfterAttempt<Err, P>(policy: Policy<Err, P>, outcome: Outcome<Err>, attempt: nat, state: Option<P>): Attempted<P> {
    match outcome
    case Returns => Succeeded
    case Throws(err) =>
      match policy(err, attempt, state)
      case Threw => GaveUp
      case Decided(Stop, _) => GaveUp
      case Decided(RetryIn(_), state') => Retry(state')
  }

  /**
   What `runHandlerWithPolicy` comes to when the handler's `i`-th run has outcome `outcome(i)`
   and the worker is told to stop before run number `closesAt`.
   */
  ghost function Expected<Err, P>(policy: Policy<Err, P>, outcome: nat -> Outcome<Err>, closesAt: nat, attempt: nat, state: Option<P>): RunResult
    decreases if attempt < closesAt then closesAt - attempt else 0
  {
    if attempt >= closesAt then RunResult(false, if attempt == 0 then 0 else attempt - 1, false)
    else match AfterAttempt(policy, outcome(attempt), attempt, state)
      case Succeeded => RunResult(true, attempt, false)
      case GaveUp => RunResult(false, attempt, true)
      case Retry(state') => Expected(policy, outcome, closesAt, attempt + 1, state')
  }

  /**
   `states[i]` is the policy's slot after `i` retries: it starts empty, run `i + 1` throws, and the
   policy, asked with that slot, decides on a retry and hands back the next one.
   */
  ghost predicate Retried<Err, P>(policy: Policy<Err, P>, outcome: nat -> Outcome<Err>, states: seq<Option<P>>) {
    && states != [] && states[0] == None
    && forall i: nat | i + 1 < |states| :: RetriedAt(policy, outcome, states, i)
  }

  ghost predicate RetriedAt<Err, P>(policy: Policy<Err, P>, outcome: nat -> Outcome<Err>, states: seq<Option<P>>, i: nat)
    requires i + 1 < |states|
  {
    && outcome(i + 1).Throws?
    && var answer := policy(outcome(i + 1).err, i + 1, states[i]);
       answer.Decided? && answer.decision.RetryIn? && answer.state == states[i + 1]
  }

  /** The policy, asked after run `n` has thrown, stops or throws itself. */
  ghost predicate GivesUpAfter<Err, P>(policy: Policy<Err, P>, outcome: nat -> Outcome<Err>, n: nat, state: Option<P>) {
    && outcome(n).Throws?
    && var answer := policy(outcome(n).err, n, state); answer.Threw? || answer.decision.Stop?
  }

  /**
   The course of `runHandlerWithPolicy`: after the retries of `states` the next run returns, or it
   throws and the policy gives up, or the worker has been stopped before it.
   */
  ghost predicate Course<Err, P>(policy: Policy<Err, P>, outcome: nat -> Outcome<Err>, closesAt: nat, states: seq<Option<P>>, r: RunResult) {
    && Retried(policy, outcome, states)
    && if r.ok then r.runs == |states| < closesAt && outcome(r.runs).Returns? && !r.aborted
       else if r.aborted then r.runs == |states| < closesAt && GivesUpAfter(policy, outcome, r.runs, states[|states| - 1])
       else |states| == r.runs + 1 == if closesAt == 0 then 1 else closesAt
  }

  lemma RetriedOnce<Err, P>(policy: Policy<Err, P>, outcome: nat -> Outcome<Err>, states: seq<Option<P>>, next: Option<P>)
    requires Retried(policy, outcome, states) && outcome(|states|).Throws?
    requires var answer := policy(outcome(|states|).err, |states|, states[|states| - 1]);
      answer.Decided? && answer.decision.RetryIn? && answer.state == next
    ensures Retried(policy, outcome, states + [next])
  {
    forall i: nat | i + 1 < |states + [next]| ensures RetriedAt(policy, outcome, states + [next], i) {
      if i + 1 < |states| {
        assert RetriedAt(policy, outcome, states, i);
      }
    }
  }

  /** After retries through `states` what is expected of the loop is what was expected at the start. */
  lemma {:induction false} ExpectedGoesOn<Err, P>(policy: Policy<Err, P>, outcome: nat -> Outcome<Err>, closesAt: nat, states: seq<Option<P>>)
    requires Retried(policy, outcome, states) && |states| <= closesAt
    ensures Expected(policy, outcome, closesAt, |states|, states[|states| - 1]) == Expected(policy, outcome, closesAt, 1, None)
  {
    if |states| > 1 {
      var last := |states| - 1;
      forall i: nat | i + 1 < last ensures RetriedAt(policy, outcome, states[..last], i) {
        assert RetriedAt(policy, outcome, states, i);
      }
      ExpectedGoesOn(policy, outcome, closesAt, states[..last]);
      assert RetriedAt(policy, outcome, states, last - 1);
    }
  }

  /** Whatever the policy and the outcomes, Expected is the result of such a course. */
  lemma {:induction false} ExpectedIsCourse<Err, P>(policy: Policy<Err, P>, outcome: nat -> Outcome<Err>, closesAt: nat, before: seq<Option<P>>)
    returns (states: seq<Option<P>>)
    requires Retried(policy, outcome, before) && |before| <= closesAt + 1 && (|before| == closesAt + 1 ==> closesAt == 0)
    ensures Course(policy, outcome, closesAt, states, Expected(policy, outcome, closesAt, |before|, before[|before| - 1]))
    decreases closesAt + 1 - |before|
  {
    states := before;
    if |before| < closesAt && outcome(|before|).Throws? {
      var answer := policy(outcome(|before|).err, |before|, before[|before| - 1]);
      if answer.Decided? && answer.decision.RetryIn? {
        RetriedOnce(policy, outcome, before, answer.state);
        states := ExpectedIsCourse(policy, outcome, closesAt, before + [answer.state]);
      }
    }
  }

  /** There is only one such course, so it describes the loop completely. */
  lemma {:induction false} CoursesAgree<Err, P>(policy: Policy<Err, P>, outcome: nat -> Outcome<Err>, a: seq<Option<P>>, b: seq<Option<P>>, n: nat)
    requires Retried(policy, outcome, a) && Retried(policy, outcome, b) && n < |a| && n < |b|
    ensures a[n] == b[n]
  {
    if n > 0 {
      CoursesAgree(policy, outcome, a, b, n - 1);
      assert RetriedAt(policy, outcome, a, n - 1) && RetriedAt(policy, outcome, b, n - 1);
    }
  }

  lemma RetriesGoOn<Err, P>(policy: Policy<Err, P>, outcome: nat -> Outcome<Err>, states: seq<Option<P>>, i: nat)
    requires Retried(policy, outcome, states) && i + 1 < |states|
    ensures RetriedAt(policy, outcome, states, i)
  {
  }

  lemma NotLonger<Err, P>(policy: Policy<Err, P>, outcome: nat -> Outcome<Err>, closesAt: nat,
                          a: seq<Option<P>>, r: RunResult, b: seq<Option<P>>, t: RunResult)
    requires Course(policy, outcome, closesAt, a, r) && Course(policy, outcome, closesAt, b, t)
    ensures |b| <= |a|
  {
    if |a| < |b| {
      CoursesAgree(policy, outcome, a, b, |a| - 1);
      RetriesGoOn(policy, outcome, b, |a| - 1);
    }
  }

  lemma CourseIsUnique<Err, P>(policy: Policy<Err, P>, outcome: nat -> Outcome<Err>, closesAt: nat,
                               a: seq<Option<P>>, r: RunResult, b: seq<Option<P>>, t: RunResult)
    requires Course(policy, outcome, closesAt, a, r) && Course(policy, outcome, closesAt, b, t)
    ensures a == b && r == t
  {
    NotLonger(policy, outcome, closesAt, a, r, b, t);
    NotLonger(policy, outcome, closesAt, b, t, a, r);
    forall n: nat | n < |a| ensures a[n] == b[n] {
      CoursesAgree(policy, outcome, a, b, n);
    }
  }

  ghost predicate NeverStops<Err(!new), P(!new)>(policy: Policy<Err, P>) {
    forall err, attempt: nat, state :: policy(err, attempt, state).Decided? && policy(err, attempt, state).decision.RetryIn?
  }

  /** Under `retryUpTo(n, p)` with `p` never stopping, a handler that always fails runs exactly n + 1 times. */
  lemma {:induction false} AlwaysFailingRuns<Err(!new), P(!new)>(n: nat, p: Policy<Err, P>, outcome: nat -> Outcome<Err>, closesAt: nat,
                                                                 attempt: nat, state: Option<P>)
    requires n >= 1 && NeverStops(p) && (forall i: nat :: outcome(i).Throws?)
    requires 1 <= attempt <= n + 1 < closesAt
    ensures Expected(RetryUpTo(n, p).value, outcome, closesAt, attempt, state) == RunResult(false, n + 1, true)
    decreases n + 1 - attempt
  {
    if attempt <= n {
      var next := p(outcome(attempt).err, attempt, state);
      assert next.decision.RetryIn?;
      AlwaysFailingRuns(n, p, outcome, closesAt, attempt + 1, next.state);
    }
  }

  /** A policy that never stops lets the handler run until it returns, however often it fails before. */
  lemma {:induction false} EventuallyReturns<Err(!new), P(!new)>(p: Policy<Err, P>, outcome: nat -> Outcome<Err>, closesAt: nat,
                                                                 good: nat, attempt: nat, state: Option<P>)
    requires NeverStops(p) && outcome(good).Returns? && forall i: nat | attempt <= i < good :: outcome(i).Throws?
    requires 1 <= attempt <= good < closesAt
    ensures Expected(p, outcome, closesAt, attempt, state) == RunResult(true, good, false)
    decreases good - attempt
  {
    if attempt < good {
      var next := p(outcome(attempt).err, attempt, state);
      assert next.decision.RetryIn?;
      EventuallyReturns(p, outcome, closesAt, good, attempt + 1, next.state);
    }
  }

  /** With a limit, it returns if and only if it would have within the first n + 1 runs. */
  lemma {:induction false} LimitedReturnsIff<Err(!new), P(!new)>(n: nat, p: Policy<Err, P>, outcome: nat -> Outcome<Err>, closesAt: nat,
                                                                 attempt: nat, state: Option<P>)
    requires n >= 1 && NeverStops(p) && 1 <= attempt <= n + 1 < closesAt
    ensures Expected(RetryUpTo(n, p).value, outcome, closesAt, attempt, state).ok
            <==> exists i: nat :: attempt <= i <= n + 1 && outcome(i).Returns?
    decreases n + 1 - attempt
  {
    if outcome(attempt).Throws? && attempt <= n {
      var next := p(outcome(attempt).err, attempt, state);
      assert next.decision.RetryIn?;
      LimitedReturnsIff(n, p, outcome, closesAt, attempt + 1, next.state);
    }
  }
}
