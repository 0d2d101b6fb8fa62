/**
The gateway's circuit breaker against a rule that has no state: what was recorded, and when.
Calls overlap freely, so admissions and recorded results come in any order.
*/
module CircuitBreaker {
  import opened Common

  datatype Status = Closed | Open | HalfOpen

  datatype State = State(status: Status, failures: nat, lastFailure: Option<int>)

  // What happens to a breaker, each at its time.
  datatype Entry = PreCall(at: int) | Success | Failure(at: int)

  const U32: nat := 0x1_0000_0000
  const NEW := State(Closed, 0, None)

  function Admits(s: State, timeout: nat, now: int): bool {
    s.status != Open || now - (if s.lastFailure.Some? then s.lastFailure.value else now) >= timeout
  }

  function Step(s: State, threshold: nat, timeout: nat, e: Entry): State {
    match e
    case PreCall(now) => if s.status == Open && Admits(s, timeout, now) then s.(status := HalfOpen) else s
    case Success => s.(failures := 0, status := Closed)
    case Failure(now) =>
      var failures := (s.failures + 1) % U32;   // u32 without overflow checks
      State(if failures >= threshold then Open else s.status, failures, Some(now))
  }

  function After(history: seq<Entry>, threshold: nat, timeout: nat): State {
    if history == [] then NEW
    else Step(After(history[..|history| - 1], threshold, timeout), threshold, timeout, history[|history| - 1])
  }

  /* ---------- The rule ---------- */

  // Failures recorded since the last recorded success.
  function FailuresSince(history: seq<Entry>): nat {
    if history == [] then 0
    else match history[|history| - 1]
      case Success => 0
      case Failure(_) => FailuresSince(history[..|history| - 1]) + 1
      case PreCall(_) => FailuresSince(history[..|history| - 1])
  }

  function LastFailure(history: seq<Entry>): Option<int> {
    if history == [] then None
    else if history[|history| - 1].Failure? then Some(history[|history| - 1].at)
    else LastFailure(history[..|history| - 1])
  }

  predicate Rule(history: seq<Entry>, threshold: nat, timeout: nat, now: int) {
    || FailuresSince(history) < threshold
    || (LastFailure(history).Some? && now >= LastFailure(history).value + timeout)
  }

  // Time does not run backwards.
  predicate UpTo(history: seq<Entry>, now: int) {
    forall e <- history :: !e.Success? ==> e.at <= now
  }

  /* ---------- The refinement ---------- */

  // What the state says about the history.
  ghost predicate Reflects(s: State, history: seq<Entry>, threshold: nat, timeout: nat) {
    && s.lastFailure == LastFailure(history)
    && s.failures == FailuresSince(history)
    && (s.status == Closed <==> FailuresSince(history) < threshold)
    && (s.status != Closed ==> s.lastFailure.Some?)
    && (s.status == HalfOpen ==> exists e <- history :: e.PreCall? && e.at >= s.lastFailure.value + timeout)
  }

  lemma {:induction false} StateReflects(history: seq<Entry>, threshold: nat, timeout: nat)
    requires threshold >= 1 && FailuresSince(history) < U32
    ensures Reflects(After(history, threshold, timeout), history, threshold, timeout)
    decreases |history|
  {
    if history != [] {
      var rest, e := history[..|history| - 1], history[|history| - 1];
      assert history == rest + [e];
      if e.Success? {
        LastFailureKept(rest, threshold, timeout);
      } else {
        StateReflects(rest, threshold, timeout);
        assert e in history;
        assert forall x <- rest :: x in history;
      }
    }
  }

  // Whatever else has happened, the last failure is remembered.
  lemma {:induction false} LastFailureKept(history: seq<Entry>, threshold: nat, timeout: nat)
    ensures After(history, threshold, timeout).lastFailure == LastFailure(history)
    decreases |history|
  {
    if history != [] {
      LastFailureKept(history[..|history| - 1], threshold, timeout);
    }
  }

  /** The breaker refines the rule: for any interleaving of admissions and results, with time
      running forward, a call is admitted at `now` exactly when fewer than `threshold` failures
      were recorded since the last success, or the last failure is at least `timeout` old. */
  lemma BreakerRefinesRule(history: seq<Entry>, threshold: nat, timeout: nat, now: int)
    requires threshold >= 1 && FailuresSince(history) < U32 && UpTo(history, now)
    ensures Admits(After(history, threshold, timeout), timeout, now) <==> Rule(history, threshold, timeout, now)
  {
    StateReflects(history, threshold, timeout);
  }

  /** The threshold must be positive: with zero the rule refuses where the new breaker admits. */
  lemma RuleNeedsAThreshold(threshold: nat, timeout: nat)
    ensures (forall now :: Admits(NEW, timeout, now) <==> Rule([], threshold, timeout, now)) <==> threshold >= 1
  {
    assert threshold == 0 ==> !Rule([], threshold, timeout, 0) && Admits(NEW, timeout, 0);
  }

  /** An open breaker half-opens for every caller, not one: nothing recorded, nothing changes. */
  lemma HalfOpenAdmitsAll(history: seq<Entry>, threshold: nat, timeout: nat, now: int, later: int)
    requires threshold >= 1 && FailuresSince(history) < U32 && UpTo(history, now) && now <= later
    requires Rule(history, threshold, timeout, now)
    ensures Admits(After(history + [PreCall(now)], threshold, timeout), timeout, later)
  {
    assert (history + [PreCall(now)])[..|history|] == history;
    BreakerRefinesRule(history + [PreCall(now)], threshold, timeout, later);
  }

  /* ---------- As it runs ---------- */

  class CircuitBreaker {
    const threshold: nat
    const timeout: nat
    var status: Status
    var failures: nat
    var lastFailure: Option<int>
    ghost var history: seq<Entry>

    constructor (threshold: nat, timeout: nat)
      ensures Valid() && history == [] && this.threshold == threshold && this.timeout == timeout
    {
      this.threshold, this.timeout := threshold, timeout;
      status, failures, lastFailure, history := Closed, 0, None, [];
    }

    ghost predicate Valid()
      reads this
    {
      State(status, failures, lastFailure) == After(history, threshold, timeout)
    }

    method TryEnter(now: int) returns (ok: bool)
      requires Valid()
      modifies this
      ensures Valid() && history == old(history) + [PreCall(now)]
      ensures threshold >= 1 && FailuresSince(old(history)) < U32 && UpTo(old(history), now) ==>
        (ok <==> Rule(old(history), threshold, timeout, now))
    {
      if threshold >= 1 && FailuresSince(history) < U32 && UpTo(history, now) {
        BreakerRefinesRule(history, threshold, timeout, now);
      }
      history := history + [PreCall(now)];
      assert history[..|history| - 1] == old(history);
      if status == Open {
        var elapsed := now - (if lastFailure.Some? then lastFailure.value else now);
        if elapsed < timeout {
          return false;
        }
        status := HalfOpen;
      }
      return true;
    }

    method RecordSuccess()
      requires Valid()
      modifies this
      ensures Valid() && history == old(history) + [Success]
    {
      failures, status := 0, Closed;
      history := history + [Success];
      assert history[..|history| - 1] == old(history);
    }

    method RecordFailure(now: int)
      requires Valid()
      modifies this
      ensures Valid() && history == old(history) + [Failure(now)]
    {
      failures := (failures + 1) % U32;
      lastFailure := Some(now);
      if failures >= threshold {
        status := Open;
      }
      history := history + [Failure(now)];
      assert history[..|history| - 1] == old(history);
    }
  }
}
