/** The shared-worker transport: requests, their stall timers, and the health probe they share. */
module WebTransport {
  type Value(==, !new)

  datatype Outcome = Resolved(value: Value) | Rejected(error: string)

  /** Calls have a stall timer; the discovery of login flows also gives up on its own. */
  datatype Kind = Plain | Call | LoginFlows

  /** `Waiting` for the next ping, or `Pinged` and waiting for any answer. */
  datatype Probe = Off | Waiting | Pinged

  datatype Message =
    | Notice
    | Pong(id: nat)
    | Panic(error: string)
    | Superseded
    | Reply(id: nat, outcome: Outcome)

  /** `pings` is history: the ids spent on pings. */
  datatype Web = Web(
    pending: set<nat>,
    settled: map<nat, Outcome>,
    stallTimers: set<nat>,
    timeouts: set<nat>,
    overdue: set<nat>,
    probe: Probe,
    stalled: bool,
    nextId: nat,
    connected: bool,
    closed: bool,
    pings: set<nat>)
  {
    function Schedule(): Web {
      if closed || overdue == {} || probe != Off then this else this.(probe := Waiting)
    }

    function SetOverdue(id: nat, late: bool): Web {
      if late then this.(overdue := overdue + {id}).Schedule()
      else if overdue - {id} != {} then this.(overdue := overdue - {id})
      else this.(overdue := {}, probe := Off, stalled := false)
    }

    function Responsive(): Web {
      if overdue == {} then this else this.(probe := Off, stalled := false).Schedule()
    }

    /** A pending request ends: its timers stop and it is overdue no more. */
    function Settle(id: nat, outcome: Outcome): Web {
      this.(pending := pending - {id}, settled := settled[id := outcome],
            stallTimers := stallTimers - {id}, timeouts := timeouts - {id})
        .SetOverdue(id, false)
    }

    /** Every pending request ends at once, once nothing is overdue. */
    function RejectPending(error: string): Web {
      this.(pending := {}, settled := settled + Rejections(pending, error), stallTimers := stallTimers - pending,
            timeouts := timeouts - pending, overdue := {}, probe := Off, stalled := stalled && pending == {})
    }

    function Crash(error: string): Web {
      this.(connected := false, overdue := {}, probe := Off, stalled := false).RejectPending(error)
    }

    function Supersede(): Web { this.(closed := true).Crash("core superseded by a newer tab") }

    function Detach(reason: string): Web {
      this.(closed := true, connected := false, overdue := {}, probe := Off).RejectPending(reason)
    }

    function Request(kind: Kind): Web {
      if closed then this
      else
        this.(nextId := nextId + 1, connected := true, pending := pending + {nextId},
              stallTimers := if kind.Plain? then stallTimers else stallTimers + {nextId},
              timeouts := if kind.LoginFlows? then timeouts + {nextId} else timeouts)
    }

    function Handle(message: Message): Web {
      var heard := Responsive();
      match message
      case Notice => heard
      case Pong(_) => heard
      case Panic(error) => heard.Crash(error)
      case Superseded => heard.Supersede()
      case Reply(id, outcome) => if id in pending then heard.Settle(id, outcome) else heard
    }

    function ProbeFires(): Web {
      match probe
      case Off => this
      case Waiting =>
        if closed || overdue == {} then this.(probe := Off)
        else this.(nextId := nextId + 1, pings := pings + {nextId}, connected := true, probe := Pinged)
      case Pinged => this.(probe := Off, stalled := true).Schedule()
    }

    function StallFires(id: nat): Web { this.(stallTimers := stallTimers - {id}).SetOverdue(id, true) }

    /** Discovery gives up: its stall timer goes on. */
    function TimesOut(id: nat): Web {
      var fired := this.(timeouts := timeouts - {id});
      if id in pending then
        fired.(pending := pending - {id},
               settled := settled[id := Rejected("Timed out waiting for homeserver discovery")])
      else fired
    }
  }

  function Rejections(ids: set<nat>, error: string): map<nat, Outcome> { map id | id in ids :: Rejected(error) }

  function Created(): Web { Web({}, map[], {}, {}, {}, Off, false, 1, false, false, {}) }

  class WorkerTransport {
    var pending: set<nat>
    var settled: map<nat, Outcome>
    var stallTimers: set<nat>
    var timeouts: set<nat>
    var overdue: set<nat>
    var probe: Probe
    var stalled: bool
    var nextId: nat
    var connected: bool
    var closed: bool
    ghost var pings: set<nat>

    ghost function State(): Web
      reads this
    {
      Web(pending, settled, stallTimers, timeouts, overdue, probe, stalled, nextId, connected, closed, pings)
    }

    constructor ()
      ensures State() == Created()
    {
      pending, settled, stallTimers, timeouts, overdue := {}, map[], {}, {}, {};
      probe, stalled, nextId, connected, closed, pings := Off, false, 1, false, false, {};
    }

    method ScheduleHealthProbe()
      modifies this`probe
      ensures State() == old(State()).Schedule()
    {
      if closed || overdue == {} || probe != Off { return; }
      probe := Waiting;
    }

    method SetOverdue(id: nat, late: bool)
      modifies this`overdue, this`probe, this`stalled
      ensures State() == old(State()).SetOverdue(id, late)
    {
      if late {
        overdue := overdue + {id};
        ScheduleHealthProbe();
        return;
      }
      overdue := overdue - {id};
      if overdue != {} { return; }
      probe, stalled := Off, false;
    }

    method MarkWorkerResponsive()
      modifies this`probe, this`stalled
      ensures State() == old(State()).Responsive()
    {
      if overdue == {} { return; }
      probe, stalled := Off, false;
      ScheduleHealthProbe();
    }

    method Settle(id: nat, outcome: Outcome)
      modifies this`pending, this`settled, this`stallTimers, this`timeouts, this`overdue, this`probe, this`stalled
      ensures State() == old(State()).(pending := old(pending) - {id}).Settle(id, outcome)
    {
      pending, timeouts, stallTimers := pending - {id}, timeouts - {id}, stallTimers - {id};
      SetOverdue(id, false);
      settled := settled[id := outcome];
    }

    /** Settles one request after another; each settling looks at what is overdue again. */
    method RejectPending(error: string)
      requires overdue == {} && probe == Off
      modifies this`pending, this`settled, this`stallTimers, this`timeouts, this`overdue, this`probe, this`stalled
      ensures State() == old(State()).RejectPending(error)
    {
      var waiting := pending;
      pending := {};
      var rest := waiting;
      while rest != {}
        invariant rest <= waiting && pending == {} && overdue == {} && probe == Off
        invariant settled == old(settled) + Rejections(waiting - rest, error)
        invariant stallTimers == old(stallTimers) - (waiting - rest) && timeouts == old(timeouts) - (waiting - rest)
        invariant stalled == (old(stalled) && rest == waiting)
      {
        var id :| id in rest;
        assert waiting - (rest - {id}) == waiting - rest + {id};
        rest := rest - {id};
        Settle(id, Rejected(error));
      }
      assert waiting - rest == waiting;
    }

    method HandleCrash(error: string)
      modifies this
      ensures State() == old(State()).Crash(error)
    {
      connected, probe, overdue, stalled := false, Off, {}, false;
      RejectPending(error);
    }

    method HandleSuperseded()
      modifies this
      ensures State() == old(State()).Supersede()
    {
      closed := true;
      HandleCrash("core superseded by a newer tab");
    }

    method Detach(reason: string)
      modifies this
      ensures State() == old(State()).Detach(reason)
    {
      closed, probe, overdue := true, Off, {};
      RejectPending(reason);
      connected := false;
    }

    /** Whether the request went out; a closed transport throws. */
    method Request(kind: Kind) returns (sent: bool, id: nat)
      modifies this
      ensures State() == old(State()).Request(kind) && sent == !old(closed) && id == old(nextId)
    {
      id := nextId;
      if closed { return false, id; }
      nextId, connected := nextId + 1, true;
      if kind.LoginFlows? { timeouts := timeouts + {id}; }
      if !kind.Plain? { stallTimers := stallTimers + {id}; }
      pending := pending + {id};
      sent := true;
    }

    method OnMessage(message: Message)
      modifies this
      ensures State() == old(State()).Handle(message)
    {
      MarkWorkerResponsive();
      match message
      case Notice =>
      case Pong(_) =>
      case Panic(error) => HandleCrash(error);
      case Superseded => HandleSuperseded();
      case Reply(id, outcome) =>
        if id !in pending { return; }
        Settle(id, outcome);
    }

    method OnProbeTimer()
      modifies this
      ensures State() == old(State()).ProbeFires()
    {
      match probe
      case Off =>
      case Waiting =>
        probe := Off;
        if closed || overdue == {} { return; }
        pings := pings + {nextId};
        nextId, connected, probe := nextId + 1, true, Pinged;
      case Pinged =>
        probe, stalled := Off, true;
        ScheduleHealthProbe();
    }

    method OnStallTimer(id: nat)
      modifies this
      ensures State() == old(State()).StallFires(id)
    {
      stallTimers := stallTimers - {id};
      SetOverdue(id, true);
    }

    method OnTimeout(id: nat)
      modifies this
      ensures State() == old(State()).TimesOut(id)
    {
      timeouts := timeouts - {id};
      if id !in pending { return; }
      pending := pending - {id};
      settled := settled[id := Rejected("Timed out waiting for homeserver discovery")];
    }
  }

  // ---- runs ----

  datatype Step =
    | Ask(kind: Kind)
    | Receive(message: Message)
    | Break(error: string)
    | ProbeTimer
    | StallTimer(id: nat)
    | Timeout(id: nat)
    | Leave(reason: string)

  /** Messages and failures come from the connected worker; a timer fires only while it runs. */
  function Do(w: Web, step: Step): Web {
    match step
    case Ask(kind) => w.Request(kind)
    case Receive(message) => if w.connected then w.Handle(message) else w
    case Break(error) => if w.connected then w.Crash(error) else w
    case ProbeTimer => w.ProbeFires()
    case StallTimer(id) => if id in w.stallTimers then w.StallFires(id) else w
    case Timeout(id) => if id in w.timeouts then w.TimesOut(id) else w
    case Leave(reason) => w.Detach(reason)
  }

  function Run(w: Web, steps: seq<Step>): Web {
    if steps == [] then w else Do(Run(w, steps[..|steps| - 1]), steps[|steps| - 1])
  }

  /** Each id went to a ping or to a request, and a request is pending or settled. */
  ghost predicate Accounted(w: Web) {
    && w.nextId >= 1
    && w.pending !! w.settled.Keys && w.pending !! w.pings && w.settled.Keys !! w.pings
    && (forall id :: id in w.pending || id in w.settled || id in w.pings <==> 1 <= id < w.nextId)
  }

  /** An open transport probes exactly while a request is overdue, and reports a stall only then. */
  ghost predicate Healthy(w: Web) {
    !w.closed ==> (w.probe != Off <==> w.overdue != {}) && (w.stalled ==> w.overdue != {})
  }

  /** What was overdue or timed was a request. */
  ghost predicate TimersFit(w: Web) {
    && w.timeouts <= w.pending
    && (forall id :: id in w.stallTimers || id in w.overdue ==> id in w.pending || id in w.settled)
    && (w.closed ==> w.pending == {} && !w.connected)
  }

  ghost predicate Invariant(w: Web) { Accounted(w) && Healthy(w) && TimersFit(w) }

  /** `after` accounts for the ids, and settles none again. */
  ghost predicate Accounts(w: Web, after: Web) {
    Accounted(after) && forall id :: id in w.settled ==> id in after.settled && after.settled[id] == w.settled[id]
  }

  lemma HandleAccounts(w: Web, message: Message)
    requires Accounted(w)
    ensures Accounts(w, w.Handle(message))
  {
  }

  lemma StepAccounts(w: Web, step: Step)
    requires Accounted(w) && TimersFit(w)
    ensures Accounts(w, Do(w, step))
  {
    hide Web.Handle;
    if step.Receive? { HandleAccounts(w, step.message); }
  }

  lemma StepKeepsHealth(w: Web, step: Step)
    requires Healthy(w) && TimersFit(w)
    ensures Healthy(Do(w, step))
  {
  }

  lemma HandleKeepsTimers(w: Web, message: Message)
    requires Accounted(w) && TimersFit(w) && w.connected
    ensures TimersFit(w.Handle(message))
  {
  }

  lemma StepKeepsTimers(w: Web, step: Step)
    requires Accounted(w) && TimersFit(w)
    ensures TimersFit(Do(w, step))
  {
    hide Web.Handle;
    if step.Receive? && w.connected { HandleKeepsTimers(w, step.message); }
  }

  lemma {:induction false} RunKeeps(w: Web, steps: seq<Step>)
    requires Invariant(w)
    ensures Invariant(Run(w, steps))
    ensures forall id :: id in w.settled ==> id in Run(w, steps).settled && Run(w, steps).settled[id] == w.settled[id]
    decreases |steps|
  {
    if steps != [] {
      var before, step := Run(w, steps[..|steps| - 1]), steps[|steps| - 1];
      RunKeeps(w, steps[..|steps| - 1]);
      StepAccounts(before, step);
      StepKeepsHealth(before, step);
      StepKeepsTimers(before, step);
    }
  }

  /** A request is pending or settled, never both, and its outcome never changes. */
  lemma {:induction false} RequestsSettleOnce(steps: seq<Step>, more: seq<Step>, id: nat)
    requires 1 <= id < Run(Created(), steps).nextId && id !in Run(Created(), steps).pings
    ensures var w, later := Run(Created(), steps), Run(Run(Created(), steps), more);
      && (id in w.pending <==> id !in w.settled)
      && (id in w.settled ==> id in later.settled && later.settled[id] == w.settled[id])
  {
    RunKeeps(Created(), steps);
    RunKeeps(Run(Created(), steps), more);
  }

  /** While open: probed exactly when a request is overdue, and stalled only then. */
  lemma {:induction false} ProbedExactlyWhileOverdue(steps: seq<Step>)
    ensures var w := Run(Created(), steps);
      !w.closed ==> (w.probe != Off <==> w.overdue != {}) && (w.stalled ==> w.overdue != {})
  {
    RunKeeps(Created(), steps);
  }

  /** The errors the transport settles its requests with by itself. */
  predicate OwnError(steps: seq<Step>, error: string) {
    || error == "Timed out waiting for homeserver discovery"
    || error == "core superseded by a newer tab"
    || Receive(Panic(error)) in steps || Break(error) in steps || Leave(error) in steps
  }

  predicate Given(steps: seq<Step>, id: nat, outcome: Outcome) {
    Receive(Reply(id, outcome)) in steps || (outcome.Rejected? && OwnError(steps, outcome.error))
  }

  ghost predicate OutcomesGiven(w: Web, steps: seq<Step>) {
    forall id :: id in w.settled ==> Given(steps, id, w.settled[id])
  }

  /** What the step alone accounts for. */
  predicate GivenBy(step: Step, id: nat, outcome: Outcome) {
    || step == Receive(Reply(id, outcome))
    || (outcome.Rejected? &&
          (outcome.error == "Timed out waiting for homeserver discovery"
           || outcome.error == "core superseded by a newer tab"
           || step == Receive(Panic(outcome.error)) || step == Break(outcome.error) || step == Leave(outcome.error)))
  }

  lemma HandleSettles(w: Web, message: Message, id: nat)
    requires id in w.Handle(message).settled
    ensures (id in w.settled && w.Handle(message).settled[id] == w.settled[id])
      || GivenBy(Receive(message), id, w.Handle(message).settled[id])
  {
  }

  lemma StepSettles(w: Web, step: Step, id: nat)
    requires id in Do(w, step).settled
    ensures (id in w.settled && Do(w, step).settled[id] == w.settled[id]) || GivenBy(step, id, Do(w, step).settled[id])
  {
    hide Web.Handle;
    if step.Receive? && w.connected { HandleSettles(w, step.message, id); }
  }

  lemma {:induction false} StepKeepsGiven(w: Web, steps: seq<Step>, step: Step)
    requires OutcomesGiven(w, steps)
    ensures OutcomesGiven(Do(w, step), steps + [step])
  {
    hide Do;
    var after, longer := Do(w, step), steps + [step];
    assert step in longer && forall other :: other in steps ==> other in longer;
    forall id | id in after.settled ensures Given(longer, id, after.settled[id]) {
      StepSettles(w, step, id);
      if id in w.settled && after.settled[id] == w.settled[id] { assert Given(steps, id, w.settled[id]); }
    }
  }

  /** Over every run a request was settled by a reply under its own id, or by the transport itself. */
  lemma {:induction false} OutcomesComeFromReplies(steps: seq<Step>)
    ensures OutcomesGiven(Run(Created(), steps), steps)
    decreases |steps|
  {
    if steps != [] {
      var before, step := steps[..|steps| - 1], steps[|steps| - 1];
      OutcomesComeFromReplies(before);
      StepKeepsGiven(Run(Created(), before), before, step);
      assert before + [step] == steps;
    }
  }

  /** A reply settles the request with its id only; the id of a ping settles nothing. */
  lemma RepliesSettleTheirOwn(w: Web, id: nat, outcome: Outcome)
    requires Invariant(w)
    ensures var after := w.Handle(Reply(id, outcome));
      && after.pending == w.pending - {id}
      && after.settled == (if id in w.pending then w.settled[id := outcome] else w.settled)
      && (id in w.pings ==> after.pending == w.pending)
  {
  }

  /** The worker's end, by crash, by a newer tab or by leaving it, settles everything. */
  lemma EndsLeaveNothing(w: Web, error: string)
    requires Invariant(w)
    ensures forall after :: after in {w.Crash(error), w.Supersede(), w.Detach(error)} ==>
      && after.pending == {} && after.overdue == {} && after.probe == Off && after.timeouts == {} && !after.connected
      && (forall id :: id in w.pending ==> id in after.settled && after.settled[id].Rejected?)
  {
  }

  // ---- overdue requests that nobody waits for ----

  /** The discovery timeout settles a request but not its stall timer. */
  predicate Orphans(w: Web, step: Step) {
    || (step.StallTimer? && step.id in w.stallTimers && step.id !in w.pending)
    || (step.Timeout? && step.id in w.timeouts && step.id in w.overdue)
  }

  lemma StepOrphansExactlyWhen(w: Web, step: Step)
    requires Invariant(w) && w.overdue <= w.pending
    ensures Do(w, step).overdue <= Do(w, step).pending <==> !Orphans(w, step)
  {
    hide Web.Handle;
    if step.Receive? { HandleOrphansNothing(w, step.message); }
  }

  lemma HandleOrphansNothing(w: Web, message: Message)
    requires w.overdue <= w.pending
    ensures w.Handle(message).overdue <= w.Handle(message).pending
  {
  }

  ghost predicate EveryTimerPends(w: Web) { w.overdue <= w.pending && w.stallTimers <= w.pending && w.timeouts == {} }

  /** Without a discovery of login flows, whatever is overdue is pending. */
  lemma {:induction false} OverdueIsPendingWithoutDiscovery(steps: seq<Step>)
    requires forall i :: 0 <= i < |steps| ==> steps[i] != Ask(LoginFlows)
    ensures EveryTimerPends(Run(Created(), steps))
    decreases |steps|
  {
    if steps != [] {
      var w, step := Run(Created(), steps[..|steps| - 1]), steps[|steps| - 1];
      OverdueIsPendingWithoutDiscovery(steps[..|steps| - 1]);
      hide Web.Handle;
      if step.Receive? { HandleKeepsPending(w, step.message); }
    }
  }

  lemma HandleKeepsPending(w: Web, message: Message)
    requires EveryTimerPends(w)
    ensures EveryTimerPends(w.Handle(message))
  {
  }

  predicate Ends(w: Web, step: Step) {
    || step.Leave? || (step.Break? && w.connected)
    || (step.Receive? && w.connected && (step.message.Panic? || step.message.Superseded?))
  }

  /** An orphan stays overdue, and the worker probed for it, until the worker's end. */
  lemma OrphansStay(w: Web, step: Step, id: nat)
    requires Invariant(w) && id in w.overdue && id !in w.pending && !Ends(w, step)
    ensures id in Do(w, step).overdue && id !in Do(w, step).pending
    ensures !Do(w, step).closed ==> Do(w, step).probe != Off
  {
    StepKeepsHealth(w, step);
  }

  lemma EndsClear(w: Web, step: Step)
    requires Ends(w, step)
    ensures Do(w, step).overdue == {}
  {
  }

  /** An orphan was left since the worker's last end. */
  predicate Orphaned(steps: seq<Step>) {
    steps != [] &&
      var w, step := Run(Created(), steps[..|steps| - 1]), steps[|steps| - 1];
      Orphans(w, step) || (Orphaned(steps[..|steps| - 1]) && !Ends(w, step))
  }

  /** Over every run all that is overdue is pending exactly when no orphan was left since the worker's
      last end. */
  lemma {:induction false} OverdueIsPendingExactlyWhen(steps: seq<Step>)
    ensures Run(Created(), steps).overdue <= Run(Created(), steps).pending <==> !Orphaned(steps)
    decreases |steps|
  {
    if steps != [] {
      hide Do, Orphans, Ends, Invariant;
      var w, step := Run(Created(), steps[..|steps| - 1]), steps[|steps| - 1];
      OverdueIsPendingExactlyWhen(steps[..|steps| - 1]);
      RunKeeps(Created(), steps[..|steps| - 1]);
      if w.overdue <= w.pending { StepOrphansExactlyWhen(w, step); }
      else if Ends(w, step) {
        EndsClear(w, step);
        EndsOrphanNothing(w, step);
      } else {
        var id :| id in w.overdue && id !in w.pending;
        OrphansStay(w, step, id);
      }
    }
  }

  lemma EndsOrphanNothing(w: Web, step: Step)
    requires Ends(w, step)
    ensures !Orphans(w, step)
  {
  }

  // ---- what is overdue, and when the worker counts as stalled ----

  predicate Answers(w: Web, step: Step, id: nat) {
    step.Receive? && w.connected && step.message.Reply? && step.message.id == id && id in w.pending
  }

  /** The stall timer of the request has fired, and neither its reply nor the worker's end has come since. */
  predicate FiredUnanswered(steps: seq<Step>, id: nat) {
    steps != [] &&
      var w, step := Run(Created(), steps[..|steps| - 1]), steps[|steps| - 1];
      || (step == StallTimer(id) && id in w.stallTimers)
      || (FiredUnanswered(steps[..|steps| - 1], id) && !Answers(w, step, id) && !Ends(w, step))
  }

  lemma StepOverdue(w: Web, step: Step, id: nat)
    requires Invariant(w)
    ensures id in Do(w, step).overdue <==>
      || (step == StallTimer(id) && id in w.stallTimers)
      || (id in w.overdue && !Answers(w, step, id) && !Ends(w, step))
  {
    hide Web.Handle;
    if step.Receive? { HandleOverdue(w, step.message, id); }
  }

  lemma HandleOverdue(w: Web, message: Message, id: nat)
    ensures id in w.Handle(message).overdue <==>
      && id in w.overdue && !message.Panic? && !message.Superseded?
      && !(message.Reply? && message.id == id && id in w.pending)
  {
  }

  /** Over every run a request is overdue exactly from its stall timer to its reply or the worker's end. */
  lemma {:induction false} OverdueExactlyWhen(steps: seq<Step>, id: nat)
    ensures id in Run(Created(), steps).overdue <==> FiredUnanswered(steps, id)
    decreases |steps|
  {
    if steps != [] {
      hide Do, Invariant, Answers, Ends;
      OverdueExactlyWhen(steps[..|steps| - 1], id);
      RunKeeps(Created(), steps[..|steps| - 1]);
      StepOverdue(Run(Created(), steps[..|steps| - 1]), steps[|steps| - 1], id);
    }
  }

  /** The stall timer of a call runs from the call on, and so does the give-up timer of discovery; the
      call is pending under an id of its own. */
  lemma {:induction false} AsksPend(steps: seq<Step>, kind: Kind)
    requires !Run(Created(), steps).closed
    ensures var w := Run(Created(), steps); var after, id := Do(w, Ask(kind)), w.nextId;
      && id !in w.pending && id !in w.settled && id !in w.pings
      && after.pending == w.pending + {id} && after.connected && after.settled == w.settled
      && (id in after.stallTimers <==> kind != Plain) && (id in after.timeouts <==> kind == LoginFlows)
      && after.stallTimers - {id} == w.stallTimers && after.timeouts - {id} == w.timeouts
  {
    RunKeeps(Created(), steps);
  }

  /** A worker that says nothing after a stall timer fires is pinged once and then counts as stalled;
      the requests stay pending. */
  lemma {:induction false} SilentWorkerStalls(steps: seq<Step>, id: nat)
    requires var w := Run(Created(), steps); !w.closed && w.overdue == {} && id in w.stallTimers
    ensures var w := Run(Created(), steps);
      var pinged := Do(Do(w, StallTimer(id)), ProbeTimer); var stalled := Do(pinged, ProbeTimer);
      && pinged.pings == w.pings + {w.nextId} && pinged.connected && !pinged.stalled && pinged.probe.Pinged?
      && stalled.stalled && stalled.pings == pinged.pings && stalled.probe.Waiting?
      && stalled.overdue == {id} && stalled.pending == w.pending
  {
    RunKeeps(Created(), steps);
  }

  /** Anything the worker says ends the stall and starts the wait for the next ping over; it ends for
      good when nothing is overdue. */
  lemma {:induction false} AnyMessageEndsTheStall(steps: seq<Step>, message: Message)
    requires var w := Run(Created(), steps); w.connected && !w.closed && !message.Panic? && !message.Superseded?
    ensures var after := Do(Run(Created(), steps), Receive(message));
      !after.stalled && after.probe == if after.overdue == {} then Off else Waiting
  {
    RunKeeps(Created(), steps);
  }

  predicate GivesUp(w: Web, step: Step, id: nat) { step == Timeout(id) && id in w.timeouts }

  /** What the worker's end rejects everything with. */
  function LastWords(step: Step): string {
    match step
    case Break(error) => error
    case Leave(reason) => reason
    case Receive(Panic(error)) => error
    case _ => "core superseded by a newer tab"
  }

  /** Over every run a pending request is settled exactly by its reply, its give-up timer or the
      worker's end, each with its own outcome. */
  lemma {:induction false} SettlesExactlyWhen(steps: seq<Step>, step: Step, id: nat)
    requires id in Run(Created(), steps).pending
    ensures var w := Run(Created(), steps); var after := Do(w, step);
      && (id in after.pending <==> !Answers(w, step, id) && !GivesUp(w, step, id) && !Ends(w, step))
      && (id !in after.pending ==>
            && id in after.settled
            && after.settled[id] ==
                 if Answers(w, step, id) then step.message.outcome
                 else if GivesUp(w, step, id) then Rejected("Timed out waiting for homeserver discovery")
                 else Rejected(LastWords(step)))
  {
    RunKeeps(Created(), steps);
    StepSettlesExactly(Run(Created(), steps), step, id);
  }

  lemma StepSettlesExactly(w: Web, step: Step, id: nat)
    requires Invariant(w) && id in w.pending
    ensures var after := Do(w, step);
      && (id in after.pending <==> !Answers(w, step, id) && !GivesUp(w, step, id) && !Ends(w, step))
      && (id !in after.pending ==>
            && id in after.settled
            && after.settled[id] ==
                 if Answers(w, step, id) then step.message.outcome
                 else if GivesUp(w, step, id) then Rejected("Timed out waiting for homeserver discovery")
                 else Rejected(LastWords(step)))
  {
    hide Web.Handle, Accounted, Healthy;
    if step.Receive? { HandleSettlesExactly(w, step.message, id); }
  }

  lemma HandleSettlesExactly(w: Web, message: Message, id: nat)
    requires id in w.pending
    ensures var after, answered := w.Handle(message), message.Reply? && message.id == id;
      && (id in after.pending <==> !answered && !message.Panic? && !message.Superseded?)
      && (id !in after.pending ==>
            && id in after.settled
            && after.settled[id] == if answered then message.outcome else Rejected(LastWords(Receive(message))))
  {
  }

  /** A transport is closed for good exactly by leaving it or by a newer tab. */
  lemma ClosesExactlyWhen(w: Web, step: Step)
    ensures Do(w, step).closed <==> w.closed || step.Leave? || (step == Receive(Superseded) && w.connected)
  {
    hide Web.Handle;
    if step.Receive? { HandleCloses(w, step.message); }
  }

  lemma HandleCloses(w: Web, message: Message)
    ensures w.Handle(message).closed <==> w.closed || message.Superseded?
  {
  }
}
