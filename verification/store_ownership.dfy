/** Which worker may run a core on the store: a broadcast claim asks older workers to close, and an
    exclusive lock, stolen from a hung owner, lets only one start. */
module StoreOwnership {
  import opened Options

  type WorkerId(==, !new)

  /** A worker asks for the lock twice at most: waiting for it, and stealing it. */
  datatype Kind = Waiting | Stealing

  datatype Timer = Unset | Armed | Cleared | Fired | Removed | Stole

  /** `claimStore` in one worker. `started` is the moment its promise resolves, so its core starts. */
  datatype Claim = Claim(posted: bool, superseded: bool, started: bool, timer: Timer, aborted: bool) {
    function Posted(): Claim { this.(posted := true, timer := Armed) }

    function Supersede(): Claim { this.(superseded := true) }

    function Fire(): Claim { this.(timer := Fired, aborted := true) }

    /** The lock's callback runs: whether the worker keeps the lock. */
    predicate Keeps(kind: Kind) { !superseded && (kind.Waiting? ==> !aborted) }

    function Granted(kind: Kind): Claim {
      if kind.Waiting? && aborted then this
      else this.(timer := if kind.Waiting? then Cleared else timer, started := started || !superseded)
    }

    /** A lock request fails: its lock was stolen, or the worker's own steal aborted the wait. */
    function Rejected(kind: Kind): Claim {
      if kind.Waiting? && aborted then this else Supersede()
    }
  }

  class StoreClaim {
    const claimant: WorkerId
    var posted: bool
    var superseded: bool
    var started: bool
    var timer: Timer
    var aborted: bool

    function State(): Claim
      reads this
    {
      Claim(posted, superseded, started, timer, aborted)
    }

    constructor (claimant: WorkerId)
      ensures State() == Opened() && this.claimant == claimant
    {
      this.claimant, posted, superseded, started, timer, aborted := claimant, false, false, false, Unset, false;
    }

    method PostClaim() returns (claim: WorkerId)
      modifies this
      ensures State() == old(State()).Posted() && claim == claimant
    {
      posted, timer, claim := true, Armed, claimant;
    }

    method OnMessage(claim: WorkerId) returns (closes: bool)
      modifies this`superseded
      ensures State() == if claim != claimant then old(State()).Supersede() else old(State())
      ensures closes <==> superseded && !old(superseded)
    {
      closes := false;
      if claim != claimant { closes := SupersedeOnce(); }
    }

    method SupersedeOnce() returns (closes: bool)
      modifies this`superseded
      ensures State() == old(State()).Supersede() && closes == !old(superseded)
    {
      closes := !superseded;
      superseded := true;
    }

    method OnStealTimer()
      modifies this`timer, this`aborted
      ensures State() == old(State()).Fire()
    {
      aborted := true;
      timer := Fired;
    }

    /** Runs with the lock; the lock goes back at once unless the worker keeps it. */
    method OnGranted(kind: Kind) returns (keeps: bool)
      modifies this`timer, this`started
      ensures State() == old(State()).Granted(kind) && keeps == old(State()).Keeps(kind)
    {
      if kind.Waiting? {
        if aborted { return false; }
        timer := Cleared;
      }
      if superseded { return false; }
      started := true;
      return true;
    }

    method OnRejected(kind: Kind) returns (closes: bool)
      modifies this`superseded
      ensures State() == old(State()).Rejected(kind)
      ensures closes <==> superseded && !old(superseded)
    {
      closes := false;
      if kind.Stealing? || !aborted { closes := SupersedeOnce(); }
    }
  }

  function Opened(): Claim { Claim(false, false, false, Unset, false) }

  // ---- the browser: workers, channels and the lock manager of the Web Locks API ----

  datatype Request = Request(worker: WorkerId, kind: Kind)

  /** `claims` are the open workers; a closed one is gone. `openings` is history: the order in which the
      workers opened their channels. */
  datatype Browser = Browser(
    claims: map<WorkerId, Claim>,
    inboxes: map<WorkerId, seq<WorkerId>>,
    queue: seq<Request>,
    held: Option<Request>,
    callbacks: set<Request>,
    rejections: set<Request>,
    requested: set<WorkerId>,
    openings: seq<WorkerId>,
    announced: set<WorkerId>)
  {
    function With(w: WorkerId, claim: Claim): Browser { this.(claims := claims[w := claim]) }

    function Release(request: Request): Browser { if held == Some(request) then this.(held := None) else this }
  }

  datatype Step =
    | Open(worker: WorkerId)
    | Post(worker: WorkerId)
    | Enqueue(worker: WorkerId)
    | Deliver(worker: WorkerId)
    | Grant(worker: WorkerId)
    | Call(worker: WorkerId, kind: Kind)
    | FireTimer(worker: WorkerId)
    | Withdraw(worker: WorkerId)
    | Steal(worker: WorkerId)
    | Reject(worker: WorkerId, kind: Kind)
    | Close(worker: WorkerId)

  function Initial(): Browser { Browser(map[], map[], [], None, {}, {}, {}, [], {}) }

  function Do(b: Browser, step: Step): Browser {
    var w := step.worker;
    if step.Open? then
      if w in b.openings then b
      else b.(claims := b.claims[w := Opened()], inboxes := b.inboxes[w := []], openings := b.openings + [w])
    else if w !in b.claims || w !in b.inboxes then b
    else OpenDo(b, step, b.claims[w])
  }

  /** A step of a worker that is open. */
  function OpenDo(b: Browser, step: Step, claim: Claim): Browser
    requires step.worker in b.inboxes
  {
    var w := step.worker;
    match step
    case Open(_) => b
    case Post(_) =>
      if claim.posted then b
      else
        var inboxes := map u | u in b.inboxes :: if u == w then b.inboxes[u] else b.inboxes[u] + [w];
        b.(inboxes := inboxes, announced := b.announced + {w}).With(w, claim.Posted())
    case Enqueue(_) =>
      if claim.posted && w !in b.requested
        then b.(queue := b.queue + [Request(w, Waiting)], requested := b.requested + {w}) else b
    case Deliver(_) =>
      if b.inboxes[w] == [] then b
      else
        var received := b.(inboxes := b.inboxes[w := b.inboxes[w][1..]]);
        if b.inboxes[w][0] != w then received.With(w, claim.Supersede()) else received
    case Grant(_) =>
      if b.held.None? && b.queue != [] && b.queue[0].worker == w then
        b.(queue := b.queue[1..], held := Some(b.queue[0]), callbacks := b.callbacks + {b.queue[0]})
      else b
    case Call(_, kind) =>
      if Request(w, kind) !in b.callbacks then b
      else
        var called := b.(callbacks := b.callbacks - {Request(w, kind)}).With(w, claim.Granted(kind));
        if claim.Keeps(kind) then called else called.Release(Request(w, kind))
    case FireTimer(_) => if claim.timer == Armed then b.With(w, claim.Fire()) else b
    case Withdraw(_) =>
      if claim.timer == Fired && w in b.requested
        then b.(queue := Without(b.queue, Request(w, Waiting))).With(w, claim.(timer := Removed)) else b
    case Steal(_) =>
      if claim.timer != Removed then b
      else
        b.(held := Some(Request(w, Stealing)), callbacks := b.callbacks + {Request(w, Stealing)},
           rejections := if b.held.Some? then b.rejections + {b.held.value} else b.rejections)
         .With(w, claim.(timer := Stole))
    case Reject(_, kind) =>
      if Request(w, kind) in b.rejections then
        b.(rejections := b.rejections - {Request(w, kind)}).With(w, claim.Rejected(kind))
      else b
    case Close(_) =>
      b.(claims := b.claims - {w}, inboxes := b.inboxes - {w},
         queue := Without(Without(b.queue, Request(w, Waiting)), Request(w, Stealing)),
         held := if b.held.Some? && b.held.value.worker == w then None else b.held,
         callbacks := (set r | r in b.callbacks && r.worker != w),
         rejections := (set r | r in b.rejections && r.worker != w))
  }

  function Without(queue: seq<Request>, request: Request): (rest: seq<Request>)
    ensures forall r :: r in rest <==> r in queue && r != request
  {
    if queue == [] then []
    else if queue[0] == request then Without(queue[1..], request)
    else [queue[0]] + Without(queue[1..], request)
  }

  function Run(b: Browser, steps: seq<Step>): Browser {
    if steps == [] then b else Do(Run(b, steps[..|steps| - 1]), steps[|steps| - 1])
  }

  // ---- one owner ----

  /** The worker will be told that its lock was stolen. */
  predicate Doomed(b: Browser, w: WorkerId) {
    w in b.claims
      && (Request(w, Stealing) in b.rejections || (Request(w, Waiting) in b.rejections && !b.claims[w].aborted))
  }

  /** A core that runs and that nothing has asked, or is about to ask, to close. */
  predicate Owns(b: Browser, w: WorkerId) {
    w in b.claims && b.claims[w].started && !b.claims[w].superseded && !Doomed(b, w)
  }

  /** How far a worker got decides which of its requests are about. */
  ghost predicate ClaimFits(b: Browser, w: WorkerId, claim: Claim) {
    var waiting, stealing := Request(w, Waiting), Request(w, Stealing);
    && (claim.timer.Unset? <==> !claim.posted)
    && (claim.aborted <==> claim.timer.Fired? || claim.timer.Removed? || claim.timer.Stole?)
    && (claim.started ==> claim.timer.Cleared? || claim.timer.Stole?)
    && (w in b.requested ==> claim.posted)
    && (waiting in b.queue || waiting in b.callbacks ==> w in b.requested)
    && (claim.timer.Cleared? || claim.timer.Removed? || claim.timer.Stole? ==> w in b.requested)
    && (waiting in b.callbacks || claim.timer.Cleared? || claim.timer.Removed? || claim.timer.Stole? ==>
      waiting !in b.queue)
    && (claim.timer.Cleared? ==> waiting !in b.callbacks)
    && (claim.timer.Stole? ==> b.held != Some(waiting))
    && (waiting in b.callbacks ==>
      b.held == Some(waiting) || waiting in b.rejections || claim.superseded || claim.aborted)
    && (stealing in b.callbacks ==>
          claim.timer.Stole? && (b.held == Some(stealing) || stealing in b.rejections || claim.superseded))
  }

  ghost predicate QueueFits(b: Browser) {
    && (forall r :: r in b.queue ==> r.worker in b.claims && r.kind.Waiting?)
    && Distinct(b.queue)
  }

  ghost predicate Known(b: Browser) {
    && b.claims.Keys == b.inboxes.Keys
    && (forall w :: w in b.claims || w in b.requested || w in b.announced ==> w in b.openings)
    && (forall r :: r in b.callbacks || r in b.rejections || b.held == Some(r) ==> r.worker in b.claims)
  }

  ghost predicate Distinct(queue: seq<Request>) {
    forall i, j :: 0 <= i < j < |queue| ==> queue[i] != queue[j]
  }

  ghost predicate OwnersHold(b: Browser) {
    forall w :: Owns(b, w) ==> b.held.Some? && b.held.value.worker == w
  }

  ghost predicate Invariant(b: Browser) {
    && Known(b) && QueueFits(b)
    && (forall w :: w in b.claims ==> ClaimFits(b, w, b.claims[w]))
    && OwnersHold(b)
  }

  lemma WithoutDistinct(queue: seq<Request>, request: Request)
    requires Distinct(queue)
    ensures Distinct(Without(queue, request))
  {
    if queue != [] {
      WithoutDistinct(queue[1..], request);
      if queue[0] != request {
        var rest := Without(queue[1..], request);
        forall j | 0 <= j < |rest| ensures rest[j] != queue[0] { assert rest[j] in queue[1..]; }
      }
    }
  }

  lemma HeadOnce(queue: seq<Request>)
    requires Distinct(queue) && queue != []
    ensures queue[0] !in queue[1..] && Distinct(queue[1..])
  {
  }

  lemma StepKeepsKnown(b: Browser, step: Step)
    requires Invariant(b)
    ensures Known(Do(b, step))
  {
    hide ClaimFits, OwnersHold, Distinct;
  }

  lemma EnqueueKeepsQueue(b: Browser, w: WorkerId)
    requires Invariant(b)
    ensures QueueFits(Do(b, Enqueue(w)))
  {
    hide OwnersHold;
    if w in b.claims { assert ClaimFits(b, w, b.claims[w]); }
  }

  lemma StepKeepsQueue(b: Browser, step: Step)
    requires Invariant(b) && !step.Enqueue?
    ensures QueueFits(Do(b, step))
  {
    hide OwnersHold, ClaimFits, Distinct;
    var shorter := Without(b.queue, Request(step.worker, Waiting));
    WithoutDistinct(b.queue, Request(step.worker, Waiting));
    WithoutDistinct(shorter, Request(step.worker, Stealing));
    if b.queue != [] { HeadOnce(b.queue); }
  }

  /** The owner is the holder, so stealing the lock dooms it. */
  lemma StealDooms(b: Browser, thief: WorkerId, w: WorkerId)
    requires Invariant(b) && Owns(Do(b, Steal(thief)), w)
    ensures Do(b, Steal(thief)).held.Some? && Do(b, Steal(thief)).held.value.worker == w
  {
    if w in b.claims && w != thief {
      assert ClaimFits(b, w, b.claims[w]);
      assert Owns(b, w);
      assert b.held == Some(Request(w, Waiting)) || b.held == Some(Request(w, Stealing)) by {
        assert b.held.Some? && b.held.value.worker == w;
        match b.held.value.kind case Waiting => case Stealing =>
      }
    }
  }

  predicate AtTheLock(step: Step) { step.Grant? || step.Call? || step.Steal? || step.Reject? }

  lemma LockStepKeepsOwner(b: Browser, step: Step, w: WorkerId)
    requires Invariant(b) && Owns(Do(b, step), w) && AtTheLock(step)
    ensures Do(b, step).held.Some? && Do(b, step).held.value.worker == w
  {
    hide QueueFits;
    if step.Steal? { StealDooms(b, step.worker, w); }
    else {
      assert Owns(b, w) ==> b.held.Some? && b.held.value.worker == w;
      if w in b.claims { assert ClaimFits(b, w, b.claims[w]); }
    }
  }

  lemma OtherStepKeepsOwner(b: Browser, step: Step, w: WorkerId)
    requires Invariant(b) && Owns(Do(b, step), w) && !AtTheLock(step)
    ensures Do(b, step).held.Some? && Do(b, step).held.value.worker == w
  {
    hide QueueFits;
    assert Owns(b, w) ==> b.held.Some? && b.held.value.worker == w;
    if w in b.claims { assert ClaimFits(b, w, b.claims[w]); }
  }

  lemma CallKeepsClaim(b: Browser, step: Step, w: WorkerId)
    requires Invariant(b) && w in Do(b, step).claims && step.Call?
    ensures ClaimFits(Do(b, step), w, Do(b, step).claims[w])
  {
    hide Owns, OwnersHold, Distinct, QueueFits;
    assert ClaimFits(b, w, b.claims[w]);
    if w == step.worker { CalledFits(b, w, step.kind); }
  }

  lemma CalledFits(b: Browser, w: WorkerId, kind: Kind)
    requires w in b.claims && w in b.inboxes && ClaimFits(b, w, b.claims[w])
    ensures ClaimFits(Do(b, Call(w, kind)), w, Do(b, Call(w, kind)).claims[w])
  {
  }

  lemma GrantKeepsClaim(b: Browser, step: Step, w: WorkerId)
    requires Invariant(b) && w in Do(b, step).claims && step.Grant?
    ensures ClaimFits(Do(b, step), w, Do(b, step).claims[w])
  {
    hide Owns, OwnersHold;
    assert ClaimFits(b, w, b.claims[w]);
    if b.queue != [] {
      HeadOnce(b.queue);
      assert b.queue[0] in b.queue;
    }
  }

  lemma LockStepKeepsClaim(b: Browser, step: Step, w: WorkerId)
    requires Invariant(b) && w in Do(b, step).claims && (step.Steal? || step.Reject?)
    ensures ClaimFits(Do(b, step), w, Do(b, step).claims[w])
  {
    hide Owns, OwnersHold, Distinct;
    assert ClaimFits(b, w, b.claims[w]);
  }

  lemma CloseKeepsClaim(b: Browser, step: Step, w: WorkerId)
    requires Invariant(b) && w in Do(b, step).claims && step.Close?
    ensures ClaimFits(Do(b, step), w, Do(b, step).claims[w])
  {
    hide Owns, OwnersHold, Distinct;
    assert ClaimFits(b, w, b.claims[w]);
  }

  lemma OtherStepKeepsClaim(b: Browser, step: Step, w: WorkerId)
    requires Invariant(b) && w in Do(b, step).claims && !AtTheLock(step) && !step.Close?
    ensures ClaimFits(Do(b, step), w, Do(b, step).claims[w])
  {
    hide Owns, OwnersHold, Distinct;
    if w in b.claims { assert ClaimFits(b, w, b.claims[w]); }
  }

  lemma StepKeeps(b: Browser, step: Step)
    requires Invariant(b)
    ensures Invariant(Do(b, step))
  {
    hide Do, Known, QueueFits, ClaimFits, Owns;
    var after := Do(b, step);
    StepKeepsKnown(b, step);
    if step.Enqueue? { EnqueueKeepsQueue(b, step.worker); } else { StepKeepsQueue(b, step); }
    forall w | Owns(after, w) ensures after.held.Some? && after.held.value.worker == w {
      if AtTheLock(step) { LockStepKeepsOwner(b, step, w); } else { OtherStepKeepsOwner(b, step, w); }
    }
    forall w | w in after.claims ensures ClaimFits(after, w, after.claims[w]) {
      if step.Call? { CallKeepsClaim(b, step, w); }
      else if step.Close? { CloseKeepsClaim(b, step, w); }
      else if step.Grant? { GrantKeepsClaim(b, step, w); }
      else if AtTheLock(step) { LockStepKeepsClaim(b, step, w); } else { OtherStepKeepsClaim(b, step, w); }
    }
  }

  lemma {:induction false} RunKeeps(steps: seq<Step>)
    ensures Invariant(Run(Initial(), steps))
    decreases |steps|
  {
    if steps != [] {
      RunKeeps(steps[..|steps| - 1]);
      StepKeeps(Run(Initial(), steps[..|steps| - 1]), steps[|steps| - 1]);
    }
  }

  /** At most one started core is neither superseded nor about to hear that its lock was stolen. */
  lemma {:induction false} OneOwner(steps: seq<Step>, w: WorkerId, u: WorkerId)
    requires Owns(Run(Initial(), steps), w) && Owns(Run(Initial(), steps), u)
    ensures w == u
  {
    RunKeeps(steps);
  }

  // ---- a core never starts late ----

  lemma SupersededStays(b: Browser, step: Step, w: WorkerId)
    requires Known(b) && w in b.claims && b.claims[w].superseded && !b.claims[w].started
    ensures w in Do(b, step).claims ==> Do(b, step).claims[w].superseded && !Do(b, step).claims[w].started
    ensures w in Do(b, step).openings
  {
  }

  lemma NeverReopens(b: Browser, step: Step, w: WorkerId)
    requires w in b.openings && w !in b.claims
    ensures w in Do(b, step).openings && w !in Do(b, step).claims
  {
  }

  lemma {:induction false} RunKnown(steps: seq<Step>)
    ensures Known(Run(Initial(), steps))
    ensures forall w :: w in Run(Initial(), steps).claims ==> w in Run(Initial(), steps).openings
  {
    RunKeeps(steps);
  }

  /** A worker superseded before it gets the lock never starts a core. */
  lemma {:induction false} SupersededNeverStarts(before: seq<Step>, steps: seq<Step>, w: WorkerId)
    requires var b := Run(Initial(), before); w in b.claims && b.claims[w].superseded && !b.claims[w].started
    ensures var b := Run(Initial(), before + steps);
      w in b.openings && (w in b.claims ==> b.claims[w].superseded && !b.claims[w].started)
    decreases |steps|
  {
    if steps == [] {
      assert before + steps == before;
      RunKnown(before);
    } else {
      hide Do, Known, Invariant;
      var n := |steps| - 1;
      assert (before + steps)[..|before + steps| - 1] == before + steps[..n];
      SupersededNeverStarts(before, steps[..n], w);
      var b := Run(Initial(), before + steps[..n]);
      RunKnown(before + steps[..n]);
      if w in b.claims { SupersededStays(b, steps[n], w); } else { NeverReopens(b, steps[n], w); }
    }
  }

  // ---- claims reach every older worker ----

  /** The worker closes, or has a claim to read that will make it. */
  predicate Yields(b: Browser, w: WorkerId) {
    w in b.claims && w in b.inboxes && (b.claims[w].superseded || exists claim :: claim in b.inboxes[w] && claim != w)
  }

  ghost predicate Heard(b: Browser) {
    && (forall i, j :: 0 <= i < j < |b.openings| && b.openings[j] in b.announced && b.openings[i] in b.claims ==>
          Yields(b, b.openings[i]))
    && (forall i, j :: 0 <= i < j < |b.openings| ==> b.openings[i] != b.openings[j])
  }

  lemma YieldsStays(b: Browser, step: Step, w: WorkerId)
    requires Known(b) && Yields(b, w) && w in Do(b, step).claims
    ensures Yields(Do(b, step), w)
  {
    var after := Do(b, step);
    if !b.claims[w].superseded {
      var claim :| claim in b.inboxes[w] && claim != w;
      if claim !in after.inboxes[w] { assert b.inboxes[w][0] == claim; }
    }
  }

  /** A claim reaches every other open worker. */
  lemma PostReaches(b: Browser, u: WorkerId, w: WorkerId)
    requires Known(b) && u != w && w in b.claims && u !in b.announced && u in Do(b, Post(u)).announced
    ensures Yields(Do(b, Post(u)), w)
  {
    assert u in Do(b, Post(u)).inboxes[w];
  }

  lemma OpeningsGrow(b: Browser, step: Step)
    ensures b.openings <= Do(b, step).openings && |Do(b, step).openings| <= |b.openings| + 1
    ensures |Do(b, step).openings| > |b.openings| ==>
      Do(b, step).openings[|b.openings|] !in b.openings && Do(b, step).announced == b.announced
    ensures forall u :: u in Do(b, step).announced && u !in b.announced ==> step == Post(u)
    ensures forall w :: w in Do(b, step).claims && w in b.openings ==> w in b.claims
  {
  }

  lemma StepKeepsHeard(b: Browser, step: Step)
    requires Known(b) && Heard(b)
    ensures Heard(Do(b, step))
  {
    hide Do, Yields;
    var after := Do(b, step);
    OpeningsGrow(b, step);
    forall i, j | 0 <= i < j < |after.openings| ensures after.openings[i] != after.openings[j] {
      assert after.openings[i] in b.openings;
    }
    forall i, j | 0 <= i < j < |after.openings| && after.openings[j] in after.announced
      && after.openings[i] in after.claims
      ensures Yields(after, after.openings[i])
    {
      var w, u := after.openings[i], after.openings[j];
      assert w == b.openings[i];
      if u in b.announced {
        assert u in b.openings;
        YieldsStays(b, step, w);
      } else { PostReaches(b, u, w); }
    }
  }

  lemma {:induction false} RunHeard(steps: seq<Step>)
    ensures Heard(Run(Initial(), steps))
    decreases |steps|
  {
    if steps != [] {
      RunHeard(steps[..|steps| - 1]);
      RunKeeps(steps[..|steps| - 1]);
      StepKeepsHeard(Run(Initial(), steps[..|steps| - 1]), steps[|steps| - 1]);
    }
  }

  /** Once a worker has posted its claim, every worker that opened before it is superseded or will be. */
  lemma {:induction false} OlderWorkersYield(steps: seq<Step>, older: nat, newer: nat)
    requires older < newer < |Run(Initial(), steps).openings|
    requires Run(Initial(), steps).openings[newer] in Run(Initial(), steps).announced
    requires Run(Initial(), steps).openings[older] in Run(Initial(), steps).claims
    ensures Yields(Run(Initial(), steps), Run(Initial(), steps).openings[older])
  {
    RunHeard(steps);
  }

  lemma Then(before: seq<Step>, step: Step) returns (steps: seq<Step>)
    ensures steps == before + [step] && Run(Initial(), steps) == Do(Run(Initial(), before), step)
  {
    steps := before + [step];
    assert steps[..|steps| - 1] == before;
  }

  lemma BothOpened(w: WorkerId, u: WorkerId) returns (steps: seq<Step>)
    requires w != u
    ensures var b := Run(Initial(), steps);
      b.claims == map[w := Opened(), u := Opened()] && b.inboxes == map[w := [], u := []]
  {
    steps := Then([], Open(w));
    steps := Then(steps, Open(u));
  }

  lemma PostedAlone(b: Browser, w: WorkerId)
    requires w in b.claims && w in b.inboxes && !b.claims[w].posted
    ensures var after := Do(b, Post(w));
      && after.claims == b.claims[w := b.claims[w].Posted()] && after.inboxes.Keys == b.inboxes.Keys
      && forall u :: u in b.inboxes ==> after.inboxes[u] == if u == w then b.inboxes[u] else b.inboxes[u] + [w]
  {
  }

  lemma PostedTogether(b: Browser, w: WorkerId, u: WorkerId)
    requires w != u && b.claims == map[w := Opened(), u := Opened()] && b.inboxes == map[w := [], u := []]
    ensures var after := Do(Do(b, Post(w)), Post(u));
      && after.claims == map[w := Opened().Posted(), u := Opened().Posted()]
      && after.inboxes == map[w := [u], u := [w]]
  {
    hide Do;
    var once := Do(b, Post(w));
    PostedAlone(b, w);
    assert once.claims == map[w := Opened().Posted(), u := Opened()];
    assert once.inboxes[w] == [] && once.inboxes[u] == [w];
    PostedAlone(once, u);
    var twice := Do(once, Post(u));
    assert twice.inboxes[w] == [u] && twice.inboxes[u] == [w];
  }

  lemma BothPosted(w: WorkerId, u: WorkerId) returns (steps: seq<Step>)
    requires w != u
    ensures var b := Run(Initial(), steps);
      && b.claims == map[w := Opened().Posted(), u := Opened().Posted()] && b.inboxes == map[w := [u], u := [w]]
  {
    hide Do, Run;
    steps := BothOpened(w, u);
    PostedTogether(Run(Initial(), steps), w, u);
    steps := Then(steps, Post(w));
    steps := Then(steps, Post(u));
  }

  /** Two workers that open their channels before either posts can supersede each other. */
  lemma BothCanBeSuperseded(w: WorkerId, u: WorkerId) returns (steps: seq<Step>)
    requires w != u
    ensures var b := Run(Initial(), steps);
      && b.claims.Keys == {w, u} && b.claims[w].superseded && b.claims[u].superseded
      && !b.claims[w].started && !b.claims[u].started
  {
    steps := BothPosted(w, u);
    steps := Then(steps, Deliver(w));
    steps := Then(steps, Deliver(u));
  }

  // ---- two cores at once take a theft ----

  /** While no lock was stolen, every started core holds the lock until it closes. */
  ghost predicate Unstolen(b: Browser) {
    && b.rejections == {}
    && (forall w :: w in b.claims ==>
      !b.claims[w].timer.Stole? && (b.claims[w].started ==> b.held == Some(Request(w, Waiting))))
  }

  lemma CallKeepsUnstolen(b: Browser, w: WorkerId, kind: Kind)
    requires Invariant(b) && Unstolen(b)
    ensures Unstolen(Do(b, Call(w, kind)))
  {
    hide Owns, OwnersHold, QueueFits, Known;
    if w in b.claims { assert ClaimFits(b, w, b.claims[w]); }
  }

  lemma StepKeepsUnstolen(b: Browser, step: Step)
    requires Invariant(b) && Unstolen(b) && !step.Steal?
    ensures Unstolen(Do(b, step))
  {
    hide Owns, OwnersHold, QueueFits;
    if step.Call? {
      CallKeepsUnstolen(b, step.worker, step.kind);
    } else if step.worker in b.claims {
      assert ClaimFits(b, step.worker, b.claims[step.worker]);
    }
  }

  lemma {:induction false} RunUnstolen(steps: seq<Step>)
    requires forall i :: 0 <= i < |steps| ==> !steps[i].Steal?
    ensures Unstolen(Run(Initial(), steps))
    decreases |steps|
  {
    if steps != [] {
      RunUnstolen(steps[..|steps| - 1]);
      RunKeeps(steps[..|steps| - 1]);
      StepKeepsUnstolen(Run(Initial(), steps[..|steps| - 1]), steps[|steps| - 1]);
    }
  }

  /** Without a theft no two cores ever live on the store together, superseded or not. */
  lemma {:induction false} TwoCoresTakeATheft(steps: seq<Step>, w: WorkerId, u: WorkerId)
    requires var b := Run(Initial(), steps);
      w in b.claims && u in b.claims && b.claims[w].started && b.claims[u].started && w != u
    ensures exists i :: 0 <= i < |steps| && steps[i].Steal?
  {
    if forall i :: 0 <= i < |steps| ==> !steps[i].Steal? { RunUnstolen(steps); }
  }

  // ---- who is asked to close, and who survives ----

  /** Another worker posts its claim while this one has its channel open. */
  predicate Challenges(b: Browser, step: Step, w: WorkerId) {
    step.Post? && step.worker != w && step.worker in b.claims && !b.claims[step.worker].posted && w in b.claims
  }

  predicate Challenged(steps: seq<Step>, w: WorkerId) {
    steps != [] &&
      (Challenged(steps[..|steps| - 1], w) || Challenges(Run(Initial(), steps[..|steps| - 1]), steps[|steps| - 1], w))
  }

  lemma ChallengeReaches(b: Browser, step: Step, w: WorkerId)
    requires Known(b) && Challenges(b, step, w)
    ensures Yields(Do(b, step), w)
  {
    assert step.worker in Do(b, step).inboxes[w];
  }

  lemma {:induction false} ChallengedWereOpen(steps: seq<Step>, w: WorkerId)
    requires Challenged(steps, w)
    ensures w in Run(Initial(), steps).openings
    decreases |steps|
  {
    var before := steps[..|steps| - 1];
    RunKnown(before);
    if Challenged(before, w) { ChallengedWereOpen(before, w); }
    OpeningsGrow(Run(Initial(), before), steps[|steps| - 1]);
  }

  // ---- with thefts ----

  /** The worker closes, or has a claim to read or the news of a theft to get that will make it. */
  predicate Closing(b: Browser, w: WorkerId) { Yields(b, w) || Doomed(b, w) }

  /** A theft of the worker's lock, unless it gave up waiting for that lock itself. */
  predicate Robs(b: Browser, step: Step, w: WorkerId) {
    && step.Steal? && step.worker in b.claims && b.claims[step.worker].timer.Removed? && w in b.claims
    && (b.held == Some(Request(w, Stealing)) || (b.held == Some(Request(w, Waiting)) && !b.claims[w].aborted))
  }

  /** The worker gives up the wait before it hears that the lock it was waiting for was stolen. */
  predicate Escapes(b: Browser, step: Step, w: WorkerId) {
    step == FireTimer(w) && w in b.claims && b.claims[w].timer.Armed? && Request(w, Waiting) in b.rejections
  }

  predicate Robbed(steps: seq<Step>, w: WorkerId) {
    steps != [] &&
      var b, step := Run(Initial(), steps[..|steps| - 1]), steps[|steps| - 1];
      Robs(b, step, w) || (Robbed(steps[..|steps| - 1], w) && !Escapes(b, step, w))
  }

  /** A request is granted once, so it is stolen once. */
  ghost predicate GrantedOnce(b: Browser, w: WorkerId, claim: Claim) {
    var waiting, stealing := Request(w, Waiting), Request(w, Stealing);
    && (b.held == Some(waiting) ==> w in b.requested && waiting !in b.queue && waiting !in b.rejections)
    && (waiting in b.rejections ==> w in b.requested && waiting !in b.queue)
    && (b.held == Some(stealing) || stealing in b.rejections ==> claim.timer.Stole?)
  }

  ghost predicate AllGrantedOnce(b: Browser) {
    forall w :: w in b.claims ==> GrantedOnce(b, w, b.claims[w])
  }

  lemma GrantGrantsOnce(b: Browser, step: Step, w: WorkerId)
    requires Invariant(b) && AllGrantedOnce(b) && w in Do(b, step).claims && step.Grant?
    ensures GrantedOnce(Do(b, step), w, Do(b, step).claims[w])
  {
    hide Owns, OwnersHold;
    assert ClaimFits(b, w, b.claims[w]) && GrantedOnce(b, w, b.claims[w]);
    if b.queue != [] {
      HeadOnce(b.queue);
      assert b.queue[0] in b.queue;
    }
  }

  lemma LockStepGrantsOnce(b: Browser, step: Step, w: WorkerId)
    requires Invariant(b) && AllGrantedOnce(b) && w in Do(b, step).claims && AtTheLock(step) && !step.Grant?
    ensures GrantedOnce(Do(b, step), w, Do(b, step).claims[w])
  {
    hide Owns, OwnersHold, Distinct;
    assert ClaimFits(b, w, b.claims[w]) && GrantedOnce(b, w, b.claims[w]);
  }

  lemma OtherStepGrantsOnce(b: Browser, step: Step, w: WorkerId)
    requires Invariant(b) && AllGrantedOnce(b) && w in Do(b, step).claims && !AtTheLock(step)
    ensures GrantedOnce(Do(b, step), w, Do(b, step).claims[w])
  {
    hide Owns, OwnersHold, Distinct;
    if w in b.claims { assert ClaimFits(b, w, b.claims[w]) && GrantedOnce(b, w, b.claims[w]); }
  }

  lemma {:induction false} RunGrantsOnce(steps: seq<Step>)
    ensures AllGrantedOnce(Run(Initial(), steps))
    decreases |steps|
  {
    hide Do, Invariant, GrantedOnce;
    if steps != [] {
      var b, step := Run(Initial(), steps[..|steps| - 1]), steps[|steps| - 1];
      RunGrantsOnce(steps[..|steps| - 1]);
      RunKeeps(steps[..|steps| - 1]);
      forall w | w in Do(b, step).claims ensures GrantedOnce(Do(b, step), w, Do(b, step).claims[w]) {
        if step.Grant? { GrantGrantsOnce(b, step, w); }
        else if AtTheLock(step) { LockStepGrantsOnce(b, step, w); }
        else { OtherStepGrantsOnce(b, step, w); }
      }
    }
  }

  /** The worker's own lock is past, stolen and heard of. */
  ghost predicate Spent(b: Browser, w: WorkerId) {
    w in b.claims &&
      (b.claims[w].timer.Stole?
       || (w in b.requested && Request(w, Waiting) !in b.queue && b.held != Some(Request(w, Waiting))
           && Request(w, Waiting) !in b.rejections))
  }

  lemma SpentStays(b: Browser, step: Step, w: WorkerId)
    requires Invariant(b) && Spent(b, w) && w in Do(b, step).claims
    ensures Spent(Do(b, step), w)
  {
    hide Owns, OwnersHold, Distinct, QueueFits;
    assert ClaimFits(b, w, b.claims[w]);
    if b.queue != [] { assert b.queue[0] in b.queue; }
  }

  /** A rejection makes the worker close, or comes of its own abort. */
  lemma RejectedWas(b: Browser, w: WorkerId, kind: Kind)
    requires Known(b) && w in b.claims
    ensures var after := Do(b, Reject(w, kind));
      if Request(w, kind) !in b.rejections then after == b
      else
        && after == b.(rejections := b.rejections - {Request(w, kind)}, claims := b.claims[w := after.claims[w]])
        && after.claims[w] == if kind.Waiting? && b.claims[w].aborted then b.claims[w] else b.claims[w].Supersede()
  {
  }

  /** A worker that yields was challenged, or heard that its lock was stolen. */
  lemma YieldsBecauseChallengedOrRobbed(b: Browser, step: Step, w: WorkerId)
    requires Known(b) && AllGrantedOnce(b) && w in b.claims && w in Do(b, step).claims && Yields(Do(b, step), w)
    ensures Yields(b, w) || Challenges(b, step, w) || (Doomed(b, w) && Spent(Do(b, step), w))
  {
    var after := Do(b, step);
    assert GrantedOnce(b, w, b.claims[w]);
    if step.Reject? && step.worker == w {
      RejectedWas(b, w, step.kind);
      match step.kind
      case Waiting =>
      case Stealing => assert Request(w, Stealing) in b.rejections ==> after.claims[w].timer.Stole?;
    } else if !after.claims[w].superseded {
      var claim :| claim in after.inboxes[w] && claim != w;
      if step == Deliver(w) && b.inboxes[w] != [] { assert claim in b.inboxes[w][1..]; }
      if claim !in b.inboxes[w] { assert step == Post(claim); }
    } else if step == Deliver(w) && b.inboxes[w] != [] {
      assert b.inboxes[w][0] in b.inboxes[w];
    }
  }

  lemma DoomedBecauseRobbed(b: Browser, step: Step, w: WorkerId)
    requires Known(b) && w in b.claims && w in Do(b, step).claims && Doomed(Do(b, step), w)
    ensures Doomed(b, w) || Robs(b, step, w)
  {
    if b.held.Some? && b.held.value.worker == w {
      match b.held.value.kind
      case Waiting => assert b.held == Some(Request(w, Waiting));
      case Stealing => assert b.held == Some(Request(w, Stealing));
    }
  }

  lemma RobberyDooms(b: Browser, step: Step, w: WorkerId)
    requires Known(b) && Robs(b, step, w)
    ensures Doomed(Do(b, step), w)
  {
  }

  lemma DoomStays(b: Browser, step: Step, w: WorkerId)
    requires Known(b) && AllGrantedOnce(b) && w in b.claims && w in Do(b, step).claims && !Escapes(b, step, w)
    requires b.claims[w].superseded || Doomed(b, w)
    ensures Do(b, step).claims[w].superseded || Doomed(Do(b, step), w)
  {
    assert GrantedOnce(b, w, b.claims[w]);
    if step.Reject? && step.worker == w { RejectedWas(b, w, step.kind); }
  }

  /** Who escapes is not doomed any more, and was not superseded by a theft. */
  lemma EscapeSaves(b: Browser, step: Step, w: WorkerId)
    requires Known(b) && AllGrantedOnce(b) && Escapes(b, step, w) && w in Do(b, step).claims
    ensures !Doomed(Do(b, step), w) && !Spent(b, w) && (Yields(Do(b, step), w) ==> Yields(b, w))
  {
    assert GrantedOnce(b, w, b.claims[w]);
  }

  lemma {:induction false} RobbedWereOpen(steps: seq<Step>, w: WorkerId)
    requires Robbed(steps, w)
    ensures w in Run(Initial(), steps).openings
    decreases |steps|
  {
    var before := steps[..|steps| - 1];
    RunKnown(before);
    if Robbed(before, w) { RobbedWereOpen(before, w); }
    OpeningsGrow(Run(Initial(), before), steps[|steps| - 1]);
  }

  /** What a run makes of an open worker. */
  ghost predicate Explained(b: Browser, challenged: bool, robbed: bool, w: WorkerId) {
    && (challenged ==> Yields(b, w))
    && (robbed ==> w in b.claims && (b.claims[w].superseded || Doomed(b, w)))
    && (Doomed(b, w) ==> robbed)
    && (Yields(b, w) ==> challenged || (robbed && Spent(b, w)))
  }

  lemma StepExplains(b: Browser, step: Step, challenged: bool, robbed: bool, w: WorkerId)
    requires Invariant(b) && AllGrantedOnce(b) && w in b.claims && w in Do(b, step).claims
    requires Explained(b, challenged, robbed, w)
    ensures Explained(Do(b, step), challenged || Challenges(b, step, w),
                      Robs(b, step, w) || (robbed && !Escapes(b, step, w)), w)
  {
    hide Do, ClaimFits, OwnersHold, Yields, Doomed, Spent, AllGrantedOnce, Escapes, Robs, Challenges;
    if Yields(b, w) { YieldsStays(b, step, w); }
    if Challenges(b, step, w) { ChallengeReaches(b, step, w); }
    if Robs(b, step, w) { RobberyDooms(b, step, w); }
    if Spent(b, w) { SpentStays(b, step, w); }
    if robbed && !Escapes(b, step, w) { DoomStays(b, step, w); }
    if Escapes(b, step, w) { EscapeSaves(b, step, w); }
    if Doomed(Do(b, step), w) { DoomedBecauseRobbed(b, step, w); }
    if Yields(Do(b, step), w) { YieldsBecauseChallengedOrRobbed(b, step, w); }
  }

  lemma OpenedExplained(b: Browser, step: Step, w: WorkerId)
    requires Invariant(b) && w in Do(b, step).claims && w !in b.claims
    ensures Explained(Do(b, step), false, false, w) && w !in b.openings
  {
    hide ClaimFits, Owns, OwnersHold, Distinct;
    assert forall r :: r in b.rejections ==> r.worker in b.claims;
  }

  lemma {:induction false} RunExplains(steps: seq<Step>, w: WorkerId)
    requires w in Run(Initial(), steps).claims
    ensures Explained(Run(Initial(), steps), Challenged(steps, w), Robbed(steps, w), w)
    decreases |steps|
  {
    hide Do, Invariant, Explained, AllGrantedOnce;
    var before, step := steps[..|steps| - 1], steps[|steps| - 1];
    var b := Run(Initial(), before);
    RunKeeps(before);
    RunGrantsOnce(before);
    if w in b.claims {
      RunExplains(before, w);
      StepExplains(b, step, Challenged(before, w), Robbed(before, w), w);
    } else {
      OpenedExplained(b, step, w);
      if Challenged(before, w) { ChallengedWereOpen(before, w); }
      if Robbed(before, w) { RobbedWereOpen(before, w); }
    }
  }

  /** Over every run an open worker closes, or will, exactly when another posted a claim while it was
      open, or stole its lock before it gave up waiting for that. */
  lemma {:induction false} ClosesExactlyWhen(steps: seq<Step>, w: WorkerId)
    requires w in Run(Initial(), steps).claims
    ensures Closing(Run(Initial(), steps), w) <==> Challenged(steps, w) || Robbed(steps, w)
  {
    hide Run, Challenged, Robbed, Doomed, Spent;
    RunExplains(steps, w);
    RunKnown(steps);
  }

  lemma {:induction false} UnrobbedWithoutThefts(steps: seq<Step>, w: WorkerId)
    requires forall i :: 0 <= i < |steps| ==> !steps[i].Steal?
    ensures !Robbed(steps, w)
    decreases |steps|
  {
    if steps != [] { UnrobbedWithoutThefts(steps[..|steps| - 1], w); }
  }

  /** While no lock was stolen, an open worker is superseded, or has a claim to read that will do it,
      exactly when another posted a claim while it was open. */
  lemma {:induction false} YieldsExactlyWhen(steps: seq<Step>, w: WorkerId)
    requires forall i :: 0 <= i < |steps| ==> !steps[i].Steal?
    requires w in Run(Initial(), steps).claims
    ensures Yields(Run(Initial(), steps), w) <==> Challenged(steps, w)
  {
    hide Run, Challenged, Robbed;
    ClosesExactlyWhen(steps, w);
    UnrobbedWithoutThefts(steps, w);
    RunUnstolen(steps);
  }

  /** No worker survives exactly when each saw another's claim posted or lost its lock to a theft. */
  lemma {:induction false} NoneSurvivesExactlyWhen(steps: seq<Step>)
    ensures var b := Run(Initial(), steps);
      (forall w :: w in b.claims ==> Closing(b, w))
      <==> (forall w :: w in b.claims ==> Challenged(steps, w) || Robbed(steps, w))
  {
    forall w | w in Run(Initial(), steps).claims
      ensures Closing(Run(Initial(), steps), w) <==> Challenged(steps, w) || Robbed(steps, w)
    {
      ClosesExactlyWhen(steps, w);
    }
  }

  lemma {:induction false} UnchallengedSince(before: seq<Step>, after: seq<Step>, w: WorkerId)
    requires forall i :: 0 <= i < |after| ==> !Challenges(Run(Initial(), before + after[..i]), after[i], w)
    ensures Challenged(before + after, w) <==> Challenged(before, w)
    decreases |after|
  {
    hide Do, Run, Challenges;
    if after == [] {
      assert before + after == before;
    } else {
      var n, all := |after| - 1, before + after;
      assert all[..|all| - 1] == before + after[..n];
      forall i | 0 <= i < n ensures !Challenges(Run(Initial(), before + after[..n][..i]), after[..n][i], w) {
        assert after[..n][..i] == after[..i];
      }
      UnchallengedSince(before, after[..n], w);
    }
  }

  /** The last worker to post survives exactly when no other posted between its opening and its post,
      and none stole its lock. */
  lemma {:induction false} LastPosterSurvivesExactlyWhen(before: seq<Step>, w: WorkerId, after: seq<Step>)
    requires w in Run(Initial(), before + [Post(w)] + after).claims
    requires forall i :: 0 <= i < |after| ==> !Challenges(Run(Initial(), before + [Post(w)] + after[..i]), after[i], w)
    ensures Closing(Run(Initial(), before + [Post(w)] + after), w)
      <==> Challenged(before, w) || Robbed(before + [Post(w)] + after, w)
  {
    var posted := before + [Post(w)];
    UnchallengedSince(posted, after, w);
    assert posted[..|posted| - 1] == before;
    ClosesExactlyWhen(posted + after, w);
  }

  // ---- which cores have started ----

  /** The lock's callback runs for an open worker that keeps the lock: nothing has superseded it, and
      its wait was not given up for a steal. */
  predicate Starts(b: Browser, step: Step, w: WorkerId) {
    && step.Call? && step.worker == w && w in b.claims && Request(w, step.kind) in b.callbacks
    && !b.claims[w].superseded && (step.kind.Waiting? ==> !b.claims[w].aborted)
  }

  ghost predicate WasGranted(steps: seq<Step>, w: WorkerId) {
    steps != [] &&
      (WasGranted(steps[..|steps| - 1], w) || Starts(Run(Initial(), steps[..|steps| - 1]), steps[|steps| - 1], w))
  }

  ghost predicate StartedSo(b: Browser, w: WorkerId, granted: bool) {
    && (w in b.claims ==> (b.claims[w].started <==> granted))
    && (w !in b.openings ==> !granted)
  }

  lemma StepStarts(b: Browser, step: Step, w: WorkerId, granted: bool)
    requires Known(b) && StartedSo(b, w, granted)
    ensures StartedSo(Do(b, step), w, granted || Starts(b, step, w))
  {
  }

  lemma {:induction false} RunStarts(steps: seq<Step>, w: WorkerId)
    ensures StartedSo(Run(Initial(), steps), w, WasGranted(steps, w))
    decreases |steps|
  {
    if steps != [] {
      hide Do, StartedSo, Starts;
      RunStarts(steps[..|steps| - 1], w);
      RunKnown(steps[..|steps| - 1]);
      StepStarts(Run(Initial(), steps[..|steps| - 1]), steps[|steps| - 1], w, WasGranted(steps[..|steps| - 1], w));
    }
  }

  /** On every run an open worker's core has started exactly when the lock was granted to it while
      nothing had superseded it, waiting without having given up or stealing. */
  lemma {:induction false} StartedExactlyWhen(steps: seq<Step>, w: WorkerId)
    requires w in Run(Initial(), steps).claims
    ensures Run(Initial(), steps).claims[w].started <==> WasGranted(steps, w)
  {
    hide Run;
    RunStarts(steps, w);
  }

  /** Whoever is first in line for a free lock, not superseded and still waiting, starts its core and
      keeps the lock; otherwise the lock is free again. */
  lemma {:induction false} FirstInLineStarts(steps: seq<Step>, w: WorkerId)
    requires var b := Run(Initial(), steps);
      w in b.claims && b.held.None? && b.queue != [] && b.queue[0] == Request(w, Waiting)
    ensures var b := Run(Initial(), steps); var after := Do(Do(b, Grant(w)), Call(w, Waiting));
      && w in after.claims && after.queue == b.queue[1..]
      && if b.claims[w].superseded || b.claims[w].aborted
         then after.held.None? && after.claims[w].started == b.claims[w].started
         else after.held == Some(Request(w, Waiting)) && after.claims[w].started && after.claims[w].timer.Cleared?
  {
    hide Run;
    RunKnown(steps);
  }

  /** A worker that has waited too long behind a hung owner takes the lock from it and starts: the
      holder, whoever it was, will hear that it was robbed. */
  lemma {:induction false} WaitersStealFromAHungOwner(steps: seq<Step>, w: WorkerId)
    requires var b := Run(Initial(), steps);
      && w in b.claims && b.claims[w].timer.Armed? && w in b.requested && !b.claims[w].superseded
      && b.held.Some?
    ensures var b := Run(Initial(), steps);
      var after := Do(Do(Do(Do(b, FireTimer(w)), Withdraw(w)), Steal(w)), Call(w, Stealing));
      && w in after.claims && after.claims[w].started && after.held == Some(Request(w, Stealing))
      && b.held.value in after.rejections
  {
    hide Run;
    RunKnown(steps);
    var b := Run(Initial(), steps);
    var withdrawn := Do(Do(b, FireTimer(w)), Withdraw(w));
    assert withdrawn == b.(queue := Without(b.queue, Request(w, Waiting)))
                         .With(w, b.claims[w].(timer := Removed, aborted := true));
  }

  /** A worker alone in its browser ends up owning the store. */
  lemma {:induction false} LoneWorkerOwns(w: WorkerId)
    ensures Owns(Run(Initial(), [Open(w), Post(w), Enqueue(w), Grant(w), Call(w, Waiting)]), w)
  {
    var steps := Then([], Open(w));
    steps := Then(steps, Post(w));
    steps := Then(steps, Enqueue(w));
    assert Run(Initial(), steps).queue == [Request(w, Waiting)] && Run(Initial(), steps).rejections == {};
    steps := Then(steps, Grant(w));
    assert Run(Initial(), steps).claims == map[w := Opened().Posted()];
    steps := Then(steps, Call(w, Waiting));
    assert steps == [Open(w), Post(w), Enqueue(w), Grant(w), Call(w, Waiting)];
  }
}
