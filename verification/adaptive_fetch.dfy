/** One origin's fetch limiter: five failures in a row queue its requests behind each other, and
    twenty-five successes in a row let them run freely again. */
module AdaptiveFetch {
  type RequestId(==, !new)

  const ENTER_AFTER_FAILURES: nat := 5
  const LEAVE_AFTER_SUCCESSES: nat := 25

  datatype Outcome = Success | Failure | Aborted

  datatype Admission = Free | Held | Queued

  /** An origin's record. `holders` are the requests the limiter has started and not heard back from. */
  datatype Gate = Gate(failures: nat, successes: nat, limited: bool, active: int, queue: seq<RequestId>,
      holders: set<RequestId>) {
    function Drain(): Gate {
      this.(active := active + |queue|, holders := holders + Members(queue), queue := [])
    }

    function Admit(): Admission {
      if !limited then Free else if active == 0 then Held else Queued
    }

    function Acquire(r: RequestId): Gate {
      match Admit()
      case Free => this
      case Held => this.(active := 1, holders := holders + {r})
      case Queued => this.(queue := queue + [r])
    }

    function Release(r: RequestId): Gate {
      var left := this.(active := active - 1, holders := holders - {r});
      if !limited then left.Drain()
      else if queue == [] then left
      else left.(active := active, queue := queue[1..], holders := left.holders + {queue[0]})
    }

    function Succeeded(): Gate {
      var counted := this.(failures := 0, successes := successes + 1);
      if limited && successes + 1 >= LEAVE_AFTER_SUCCESSES then counted.(limited := false).Drain() else counted
    }

    function Failed(): Gate {
      this.(successes := 0, failures := failures + 1, limited := limited || failures + 1 >= ENTER_AFTER_FAILURES)
    }

    function Counted(outcome: Outcome): Gate {
      match outcome
      case Success => Succeeded()
      case Failure => Failed()
      case Aborted => this
    }

    /** A response, an error or an abort: counted first, then the request's turn is given up. */
    function Ended(r: RequestId, outcome: Outcome): Gate {
      if r in holders then Counted(outcome).Release(r) else Counted(outcome)
    }
  }

  function Members(queue: seq<RequestId>): set<RequestId> { set r | r in queue }

  class OriginState {
    var failures: nat
    var successes: nat
    var limited: bool
    var active: int
    var queue: seq<RequestId>
    var holders: set<RequestId>

    function State(): Gate
      reads this
    {
      Gate(failures, successes, limited, active, queue, holders)
    }

    constructor ()
      ensures State() == Fresh()
    {
      failures, successes, limited, active, queue, holders := 0, 0, false, 0, [], {};
    }

    method Wake(r: RequestId)
      modifies this`active, this`holders
      ensures State() == old(State()).(active := old(active) + 1, holders := old(holders) + {r})
    {
      active := active + 1;
      holders := holders + {r};
    }

    method Drain()
      modifies this`active, this`queue, this`holders
      ensures State() == old(State()).Drain()
    {
      var waiting := queue;
      queue := [];
      for i := 0 to |waiting|
        invariant State() == old(State()).(
          active := old(active) + i, holders := old(holders) + Members(waiting[..i]), queue := [])
      {
        Wake(waiting[i]);
        assert Members(waiting[..i + 1]) == Members(waiting[..i]) + {waiting[i]};
      }
      assert waiting[..|waiting|] == waiting;
    }

    method Acquire(r: RequestId) returns (admission: Admission)
      modifies this`active, this`queue, this`holders
      ensures State() == old(State()).Acquire(r) && admission == old(State()).Admit()
    {
      if !limited { return Free; }
      if active == 0 {
        active, holders := 1, holders + {r};
        return Held;
      }
      queue := queue + [r];
      return Queued;
    }

    method Release(r: RequestId)
      modifies this`active, this`queue, this`holders
      ensures State() == old(State()).Release(r)
    {
      active, holders := active - 1, holders - {r};
      if !limited {
        Drain();
        return;
      }
      if queue != [] {
        var next := queue[0];
        queue := queue[1..];
        Wake(next);
      }
    }

    method Succeeded()
      modifies this
      ensures State() == old(State()).Succeeded()
    {
      failures := 0;
      successes := successes + 1;
      if limited && successes >= LEAVE_AFTER_SUCCESSES {
        limited := false;
        Drain();
      }
    }

    method Failed()
      modifies this`failures, this`successes, this`limited
      ensures State() == old(State()).Failed()
    {
      successes := 0;
      failures := failures + 1;
      if failures >= ENTER_AFTER_FAILURES { limited := true; }
    }

    method End(r: RequestId, outcome: Outcome)
      modifies this
      ensures State() == old(State()).Ended(r, outcome)
    {
      var held := r in holders;
      match outcome {
        case Success => Succeeded();
        case Failure => Failed();
        case Aborted =>
      }
      if held { Release(r); }
    }
  }

  function Fresh(): Gate { Gate(0, 0, false, 0, [], {}) }

  // ---- runs of requests ----

  /** `free` are the requests that run without a turn, long polls among them; `history` is what ended. */
  datatype Origin = Origin(gate: Gate, free: set<RequestId>, history: seq<Outcome>)

  datatype Step = Start(request: RequestId, longPoll: bool) | End(request: RequestId, outcome: Outcome)

  predicate Running(o: Origin, r: RequestId) { r in o.free || r in o.gate.holders }

  predicate Known(o: Origin, r: RequestId) { Running(o, r) || r in o.gate.queue }

  function Do(o: Origin, step: Step): Origin {
    match step
    case Start(r, longPoll) =>
      if Known(o, r) then o
      else if longPoll || o.gate.Admit().Free? then o.(free := o.free + {r})
      else o.(gate := o.gate.Acquire(r))
    case End(r, outcome) =>
      if !Running(o, r) then o
      else Origin(o.gate.Ended(r, outcome), o.free - {r}, o.history + [outcome])
  }

  function Run(o: Origin, steps: seq<Step>): Origin {
    if steps == [] then o else Do(Run(o, steps[..|steps| - 1]), steps[|steps| - 1])
  }

  function Initial(): Origin { Origin(Fresh(), {}, []) }

  ghost predicate Distinct(queue: seq<RequestId>) {
    forall i, j :: 0 <= i < j < |queue| ==> queue[i] != queue[j]
  }

  ghost predicate GateSound(gate: Gate) {
    && gate.active == |gate.holders|
    && Distinct(gate.queue)
    && (forall r :: r in gate.queue ==> r !in gate.holders)
  }

  /** No wake-up is lost: whoever waits, waits for a holder of a limited origin. */
  ghost predicate Awaited(gate: Gate) {
    gate.queue != [] ==> gate.limited && gate.active > 0
  }

  ghost predicate Invariant(o: Origin) {
    && GateSound(o.gate) && Awaited(o.gate)
    && (forall r :: r in o.free ==> r !in o.gate.holders && r !in o.gate.queue)
  }

  lemma {:induction false} DistinctSize(queue: seq<RequestId>)
    requires Distinct(queue)
    ensures |Members(queue)| == |queue|
    decreases |queue|
  {
    if queue != [] {
      var rest := queue[1..];
      DistinctSize(rest);
      assert Members(queue) == Members(rest) + {queue[0]};
      assert queue[0] !in rest;
    }
  }

  lemma DrainSound(gate: Gate)
    requires GateSound(gate)
    ensures GateSound(gate.Drain())
  {
    DistinctSize(gate.queue);
    assert gate.holders !! Members(gate.queue);
  }

  lemma ReleaseSound(gate: Gate, r: RequestId)
    requires GateSound(gate) && r in gate.holders && (gate.queue != [] ==> gate.limited)
    ensures GateSound(gate.Release(r)) && Awaited(gate.Release(r))
    ensures forall q :: q in gate.Release(r).holders || q in gate.Release(r).queue ==>
      q in gate.holders || q in gate.queue
  {
    var left := gate.(active := gate.active - 1, holders := gate.holders - {r});
    assert gate.holders == left.holders + {r};
    assert GateSound(left);
    if gate.limited && gate.queue != [] {
      assert gate.queue[0] !in gate.queue[1..];
      assert gate.queue[0] in gate.queue;
    }
    if !gate.limited { DrainSound(left); }
  }

  lemma CountSound(gate: Gate, outcome: Outcome)
    requires GateSound(gate) && Awaited(gate)
    ensures var counted := gate.Counted(outcome);
      && GateSound(counted) && Awaited(counted) && gate.holders <= counted.holders
      && (forall q :: q in counted.holders || q in counted.queue ==> q in gate.holders || q in gate.queue)
  {
    DrainSound(gate.(failures := 0, successes := gate.successes + 1, limited := false));
  }

  lemma StepKeeps(o: Origin, step: Step)
    requires Invariant(o)
    ensures Invariant(Do(o, step))
  {
    match step
    case Start(r, longPoll) =>
    case End(r, outcome) =>
      if Running(o, r) {
        var counted := o.gate.Counted(outcome);
        CountSound(o.gate, outcome);
        if r in o.gate.holders { ReleaseSound(counted, r); }
      }
  }

  lemma {:induction false} RunKeeps(o: Origin, steps: seq<Step>)
    requires Invariant(o)
    ensures Invariant(Run(o, steps))
    decreases |steps|
  {
    if steps != [] {
      RunKeeps(o, steps[..|steps| - 1]);
      StepKeeps(Run(o, steps[..|steps| - 1]), steps[|steps| - 1]);
    }
  }

  lemma {:induction false} NoLostWakeUp(steps: seq<Step>)
    ensures var o := Run(Initial(), steps);
      && (o.gate.queue != [] ==> o.gate.limited && exists holder :: holder in o.gate.holders)
      && o.gate.active == |o.gate.holders|
  {
    RunKeeps(Initial(), steps);
    var o := Run(Initial(), steps);
    if o.gate.queue != [] { var holder :| holder in o.gate.holders; }
  }

  // ---- waiting requests start in order ----

  predicate Releases(o: Origin, step: Step) { step.End? && step.request in o.gate.holders }

  function CountReleases(o: Origin, steps: seq<Step>): nat {
    if steps == [] then 0
    else
      CountReleases(o, steps[..|steps| - 1])
      + if Releases(Run(o, steps[..|steps| - 1]), steps[|steps| - 1]) then 1 else 0
  }

  /** Each release moves a waiting request up by one, or starts it. */
  lemma StepMovesUp(o: Origin, step: Step, k: nat)
    requires Invariant(o) && k < |o.gate.queue|
    ensures var r, after, moved := o.gate.queue[k], Do(o, step).gate, if Releases(o, step) then 1 else 0;
      if r in after.queue then k >= moved && k - moved < |after.queue| && after.queue[k - moved] == r
      else r in after.holders
  {
    if step.End? && Running(o, step.request) {
      var counted := o.gate.Counted(step.outcome);
      assert counted.queue == o.gate.queue || counted.queue == [];
      assert o.gate.queue[k] in Members(o.gate.queue);
    }
  }

  ghost predicate Started(o: Origin, steps: seq<Step>, r: RequestId) {
    exists i :: 0 <= i <= |steps| && r in Run(o, steps[..i]).gate.holders
  }

  /** A request at position `k` of the queue has started once `k + 1` turns were given up. */
  lemma {:induction false} StartsWithinItsTurn(o: Origin, steps: seq<Step>, k: nat)
    requires Invariant(o) && k < |o.gate.queue|
    requires forall i :: 0 <= i < |steps| && steps[i].request == o.gate.queue[k] ==> steps[i].End?
    ensures var r, after, n := o.gate.queue[k], Run(o, steps).gate, CountReleases(o, steps);
      if r in after.queue then n <= k && k - n < |after.queue| && after.queue[k - n] == r else Started(o, steps, r)
    ensures CountReleases(o, steps) > k ==> Started(o, steps, o.gate.queue[k])
    decreases |steps|
  {
    if steps != [] {
      var m := |steps| - 1;
      var before, r := Run(o, steps[..m]), o.gate.queue[k];
      StartsWithinItsTurn(o, steps[..m], k);
      RunKeeps(o, steps[..m]);
      if r in before.gate.queue {
        StepMovesUp(before, steps[m], k - CountReleases(o, steps[..m]));
        assert steps[..|steps|] == steps;
      } else {
        var i :| 0 <= i <= m && r in Run(o, steps[..m][..i]).gate.holders;
        assert steps[..m][..i] == steps[..i];
        OnlyStartsQueue(before, steps[m], r);
      }
    }
  }

  lemma OnlyStartsQueue(o: Origin, step: Step, r: RequestId)
    requires r !in o.gate.queue && (step.request == r ==> step.End?)
    ensures r !in Do(o, step).gate.queue
  {
  }

  // ---- the origin narrows to one request at a time ----

  lemma StepNarrows(o: Origin, step: Step)
    requires Invariant(o) && o.gate.limited && Do(o, step).gate.limited
    ensures |Do(o, step).gate.holders| <= if |o.gate.holders| > 1 then |o.gate.holders| else 1
  {
    StepKeeps(o, step);
  }

  ghost predicate StaysLimited(o: Origin, steps: seq<Step>) {
    forall i :: 0 <= i <= |steps| ==> Run(o, steps[..i]).gate.limited
  }

  predicate Starts(o: Origin, step: Step, r: RequestId) { step.Start? && step.request == r && !Known(o, r) }

  /** Who runs outside the limit: what ran without a turn before, and every long poll since. */
  function Exempt(o: Origin, steps: seq<Step>): set<RequestId> {
    if steps == [] then o.free
    else
      var before, exempt := Run(o, steps[..|steps| - 1]), Exempt(o, steps[..|steps| - 1]);
      match steps[|steps| - 1]
      case Start(r, longPoll) => if longPoll && !Known(before, r) then exempt + {r} else exempt
      case End(r, _) => if Running(before, r) then exempt - {r} else exempt
  }

  lemma {:induction false} FreeIsExempt(o: Origin, steps: seq<Step>)
    requires StaysLimited(o, steps)
    ensures Run(o, steps).free == Exempt(o, steps)
    decreases |steps|
  {
    if steps != [] {
      ShorterStaysLimited(o, steps);
      FreeIsExempt(o, steps[..|steps| - 1]);
    }
  }

  lemma {:induction false} ShorterStaysLimited(o: Origin, steps: seq<Step>)
    requires steps != [] && StaysLimited(o, steps)
    ensures StaysLimited(o, steps[..|steps| - 1])
    ensures Run(o, steps[..|steps| - 1]).gate.limited && Run(o, steps).gate.limited
  {
    var m := |steps| - 1;
    forall i | 0 <= i <= m ensures Run(o, steps[..m][..i]).gate.limited { assert steps[..m][..i] == steps[..i]; }
    assert steps[..|steps|] == steps;
    assert Run(o, steps[..m]).gate.limited && Run(o, steps[..|steps|]).gate.limited;
  }

  lemma {:induction false} HoldersNarrow(o: Origin, steps: seq<Step>)
    requires Invariant(o) && StaysLimited(o, steps)
    ensures |Run(o, steps).gate.holders| <= if |o.gate.holders| > 1 then |o.gate.holders| else 1
    decreases |steps|
  {
    if steps != [] {
      var m := |steps| - 1;
      ShorterStaysLimited(o, steps);
      HoldersNarrow(o, steps[..m]);
      RunKeeps(o, steps[..m]);
      StepNarrows(Run(o, steps[..m]), steps[m]);
    }
  }

  /** While an origin stays limited, the requests that run, apart from long polls and what ran freely
      before, are never more than those with a turn at first, or one. */
  lemma {:induction false} LimitedNarrows(o: Origin, steps: seq<Step>)
    requires Invariant(o) && StaysLimited(o, steps)
    ensures var after := Run(o, steps);
      |after.free + after.gate.holders - Exempt(o, steps)|
        <= if |o.gate.holders| > 1 then |o.gate.holders| else 1
  {
    FreeIsExempt(o, steps);
    HoldersNarrow(o, steps);
    RunKeeps(o, steps);
    var after := Run(o, steps);
    assert after.free + after.gate.holders - after.free == after.gate.holders;
  }

  // ---- when an origin is limited, in terms of what its requests did ----

  /** Failures since the last success; an aborted request says nothing about the network. */
  function FailureStreak(history: seq<Outcome>): nat {
    if history == [] then 0
    else
      var earlier := FailureStreak(history[..|history| - 1]);
      match history[|history| - 1]
      case Failure => earlier + 1
      case Success => 0
      case Aborted => earlier
  }

  function SuccessStreak(history: seq<Outcome>): nat {
    if history == [] then 0
    else
      var earlier := SuccessStreak(history[..|history| - 1]);
      match history[|history| - 1]
      case Success => earlier + 1
      case Failure => 0
      case Aborted => earlier
  }

  /** At some point five failed in a row, and never since did twenty-five succeed in a row. */
  ghost predicate ShouldLimit(history: seq<Outcome>) {
    exists i :: 0 <= i <= |history| && LimitsSince(history, i)
  }

  ghost predicate LimitsSince(history: seq<Outcome>, i: nat)
    requires i <= |history|
  {
    && FailureStreak(history[..i]) >= ENTER_AFTER_FAILURES
    && forall j :: i < j <= |history| ==> SuccessStreak(history[..j]) < LEAVE_AFTER_SUCCESSES
  }

  lemma {:induction false} ShouldLimitGrows(history: seq<Outcome>, outcome: Outcome)
    ensures var longer := history + [outcome];
      ShouldLimit(longer) <==>
        || FailureStreak(longer) >= ENTER_AFTER_FAILURES
        || (ShouldLimit(history) && SuccessStreak(longer) < LEAVE_AFTER_SUCCESSES)
  {
    var longer, n := history + [outcome], |history|;
    assert longer[..n] == history && longer[..n + 1] == longer;
    assert forall i :: 0 <= i <= n ==> longer[..i] == history[..i];
    if FailureStreak(longer) >= ENTER_AFTER_FAILURES { assert LimitsSince(longer, n + 1); }
    if ShouldLimit(history) && SuccessStreak(longer) < LEAVE_AFTER_SUCCESSES {
      var i :| 0 <= i <= n && LimitsSince(history, i);
      assert LimitsSince(longer, i);
    }
    if ShouldLimit(longer) && FailureStreak(longer) < ENTER_AFTER_FAILURES {
      var i :| 0 <= i <= n + 1 && LimitsSince(longer, i);
      assert LimitsSince(history, i);
    }
  }

  lemma {:induction false} OneStreakAtATime(history: seq<Outcome>)
    ensures FailureStreak(history) == 0 || SuccessStreak(history) == 0
    decreases |history|
  {
    if history != [] { OneStreakAtATime(history[..|history| - 1]); }
  }

  lemma {:induction false} ShouldLimitNow(history: seq<Outcome>)
    ensures FailureStreak(history) >= ENTER_AFTER_FAILURES ==> ShouldLimit(history)
    ensures ShouldLimit(history) ==> SuccessStreak(history) < LEAVE_AFTER_SUCCESSES
  {
    assert history[..|history|] == history;
    OneStreakAtATime(history);
    if FailureStreak(history) >= ENTER_AFTER_FAILURES { assert LimitsSince(history, |history|); }
  }

  /** Giving a turn up moves no counter. */
  lemma EndedCounts(gate: Gate, r: RequestId, outcome: Outcome)
    ensures var after := gate.Ended(r, outcome);
      && after.failures
          == (match outcome case Failure => gate.failures + 1 case Success => 0 case Aborted => gate.failures)
      && after.successes
          == (match outcome case Success => gate.successes + 1 case Failure => 0 case Aborted => gate.successes)
      && after.limited == (match outcome
           case Failure => gate.limited || gate.failures + 1 >= ENTER_AFTER_FAILURES
           case Success => gate.limited && gate.successes + 1 < LEAVE_AFTER_SUCCESSES
           case Aborted => gate.limited)
  {
  }

  /** The counters are the streaks, and the flag is what the history says it should be. */
  lemma {:induction false} LimitedExactlyWhen(steps: seq<Step>)
    ensures var o := Run(Initial(), steps);
      && o.gate.failures == FailureStreak(o.history)
      && o.gate.successes == SuccessStreak(o.history)
      && (o.gate.limited <==> ShouldLimit(o.history))
    decreases |steps|
  {
    if steps == [] {
      ShouldLimitNow([]);
      assert forall i :: 0 <= i <= 0 ==> !LimitsSince([], i);
    } else {
      hide ShouldLimit, Gate.Ended, Gate.Acquire;
      var before, step := Run(Initial(), steps[..|steps| - 1]), steps[|steps| - 1];
      LimitedExactlyWhen(steps[..|steps| - 1]);
      if step.End? && Running(before, step.request) {
        ShouldLimitGrows(before.history, step.outcome);
        ShouldLimitNow(before.history);
        EndedCounts(before.gate, step.request, step.outcome);
        assert (before.history + [step.outcome])[..|before.history|] == before.history;
      }
    }
  }

  // ---- who waits ----

  /** The origin was limited when the request last started, by what had ended before. */
  ghost predicate StartedLimited(steps: seq<Step>, r: RequestId) {
    steps != [] &&
      var before, step := Run(Initial(), steps[..|steps| - 1]), steps[|steps| - 1];
      if Starts(before, step, r) then ShouldLimit(before.history) else StartedLimited(steps[..|steps| - 1], r)
  }

  predicate StartedAsLongPoll(steps: seq<Step>, r: RequestId) {
    steps != [] &&
      var before, step := Run(Initial(), steps[..|steps| - 1]), steps[|steps| - 1];
      if Starts(before, step, r) then step.longPoll else StartedAsLongPoll(steps[..|steps| - 1], r)
  }

  lemma StepFrees(o: Origin, step: Step, r: RequestId)
    requires Invariant(o) && Known(Do(o, step), r)
    ensures r in Do(o, step).free <==> if Starts(o, step, r) then step.longPoll || !o.gate.limited else r in o.free
    ensures Known(o, r) || Starts(o, step, r)
  {
    if step.End? && Running(o, step.request) {
      var counted := o.gate.Counted(step.outcome);
      CountSound(o.gate, step.outcome);
      if step.request in o.gate.holders { ReleaseSound(counted, step.request); }
    }
  }

  /** On every run a request that has not ended runs without a turn exactly when it is a long poll or
      its origin was not limited when it started: else it has a turn or waits for one. */
  lemma {:induction false} FreeExactlyWhen(steps: seq<Step>, r: RequestId)
    requires Known(Run(Initial(), steps), r)
    ensures r in Run(Initial(), steps).free <==> StartedAsLongPoll(steps, r) || !StartedLimited(steps, r)
    decreases |steps|
  {
    if steps != [] {
      hide Do, Invariant, ShouldLimit, Known, Running;
      var m := |steps| - 1;
      RunKeeps(Initial(), steps[..m]);
      LimitedExactlyWhen(steps[..m]);
      StepFrees(Run(Initial(), steps[..m]), steps[m], r);
      if !Starts(Run(Initial(), steps[..m]), steps[m], r) { FreeExactlyWhen(steps[..m], r); }
    }
  }

  /** A request that starts on a limited origin has the only turn if no one has one, and otherwise
      waits behind everyone. */
  lemma {:induction false} LimitedStartsQueue(steps: seq<Step>, r: RequestId)
    requires !Known(Run(Initial(), steps), r) && ShouldLimit(Run(Initial(), steps).history)
    ensures var o, after := Run(Initial(), steps), Run(Initial(), steps + [Start(r, false)]);
      && after.free == o.free
      && if o.gate.holders == {} then after.gate.holders == {r} && after.gate.queue == []
         else after.gate.holders == o.gate.holders && after.gate.queue == o.gate.queue + [r]
  {
    hide ShouldLimit;
    RunKeeps(Initial(), steps);
    LimitedExactlyWhen(steps);
    assert (steps + [Start(r, false)])[..|steps|] == steps;
  }
}
