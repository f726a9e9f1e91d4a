/** `RateLimitedWarning`: at most one warning per interval, the others counted. */
module RateLimitedWarning {
  import opened Values

  /** One call of `emit()`: when, and what it logged (`Some(n)`: a warning, `n` suppressed before it). */
  datatype Call = Call(now: int, logged: Option<nat>)

  class RateLimitedWarning {
    const intervalMs: nat
    /** `None` is `-Infinity`: no warning yet. */
    var lastAt: Option<int>
    var suppressed: nat
    /** Every call so far. */
    ghost var calls: seq<Call>

    ghost predicate Valid()
      reads this
    {
      && lastAt == LastWarning(calls)
      && suppressed == Pending(calls)
      && Spaced(calls, intervalMs)
      && Conserved(calls)
    }

    constructor (intervalMs: nat)
      ensures Valid() && calls == [] && this.intervalMs == intervalMs
    {
      this.intervalMs := intervalMs;
      lastAt := None;
      suppressed := 0;
      calls := [];
    }

    method Emit(now: int) returns (logged: Option<nat>)
      requires Valid()
      modifies this
      ensures Valid() && calls == old(calls) + [Call(now, logged)]
      ensures logged == if DueAt(old(calls), now, intervalMs) then Some(Pending(old(calls))) else None
    {
      var call := Call(now, None);
      if lastAt.Some? && now - lastAt.value < intervalMs {
        suppressed := suppressed + 1;
        logged := None;
      } else {
        logged := Some(suppressed);
        lastAt := Some(now);
        suppressed := 0;
      }
      CallKeeps(calls, Call(now, logged), intervalMs);
      calls := calls + [Call(now, logged)];
    }
  }

  // ---------------------------------------------------- what a history says

  /** When the last warning was logged. */
  ghost function LastWarning(calls: seq<Call>): Option<int> {
    if calls == [] then None
    else if calls[|calls| - 1].logged.Some? then Some(calls[|calls| - 1].now)
    else LastWarning(calls[..|calls| - 1])
  }

  /** How many calls came since the last warning. */
  ghost function Pending(calls: seq<Call>): nat {
    if calls == [] || calls[|calls| - 1].logged.Some? then 0
    else 1 + Pending(calls[..|calls| - 1])
  }

  ghost predicate DueAt(calls: seq<Call>, now: int, intervalMs: nat) {
    LastWarning(calls).None? || now - LastWarning(calls).value >= intervalMs
  }

  ghost function Warnings(calls: seq<Call>): nat {
    if calls == [] then 0
    else Warnings(calls[..|calls| - 1]) + if calls[|calls| - 1].logged.Some? then 1 else 0
  }

  /** The sum of the suppressed counts the warnings reported. */
  ghost function Reported(calls: seq<Call>): nat {
    if calls == [] then 0
    else
      var last := calls[|calls| - 1].logged;
      Reported(calls[..|calls| - 1]) + if last.Some? then last.value else 0
  }

  /** Two warnings are at least an interval apart, whatever the clock did in between. */
  ghost predicate Spaced(calls: seq<Call>, intervalMs: nat) {
    forall i, j :: 0 <= i < j < |calls| && calls[i].logged.Some? && calls[j].logged.Some?
      ==> calls[j].now - calls[i].now >= intervalMs
  }

  /** Every call was logged, reported by a later warning, or is still pending. */
  ghost predicate Conserved(calls: seq<Call>) {
    |calls| == Warnings(calls) + Reported(calls) + Pending(calls)
  }

  lemma {:induction false} WarningsNotAfterLast(calls: seq<Call>, intervalMs: nat, i: nat)
    requires Spaced(calls, intervalMs) && i < |calls| && calls[i].logged.Some?
    ensures LastWarning(calls).Some? && calls[i].now <= LastWarning(calls).value
  {
    if calls[|calls| - 1].logged.None? {
      WarningsNotAfterLast(calls[..|calls| - 1], intervalMs, i);
    }
  }

  /** A call that follows the rule keeps the warnings spaced and every call accounted for. */
  lemma {:induction false} CallKeeps(calls: seq<Call>, call: Call, intervalMs: nat)
    requires Spaced(calls, intervalMs) && Conserved(calls)
    requires call.logged == if DueAt(calls, call.now, intervalMs) then Some(Pending(calls)) else None
    ensures Spaced(calls + [call], intervalMs) && Conserved(calls + [call])
    ensures LastWarning(calls + [call]) == if call.logged.Some? then Some(call.now) else LastWarning(calls)
    ensures Pending(calls + [call]) == if call.logged.Some? then 0 else Pending(calls) + 1
  {
    assert (calls + [call])[..|calls|] == calls;
    forall i | 0 <= i < |calls| && calls[i].logged.Some? && call.logged.Some?
      ensures call.now - calls[i].now >= intervalMs
    {
      WarningsNotAfterLast(calls, intervalMs, i);
    }
  }
}
