/** Session generations: which session is installed, which generation is committed, and who may
    replace, end, lock or unlock it, over every interleaving of the tasks that try. */
module SessionControl {
  import opened Options
  import AccountStore
  import AccountRuns

  type TaskId(==, !new)
  type AccountId = AccountStore.AccountId
  type ClientId = AccountStore.ClientId

  datatype Session = Session(account: AccountId, generation: nat)

  datatype Notice =
    | LockChanged(account: AccountId, generation: nat, locked: bool)
    | SessionEnded(generation: nat)
  {
    /** A watcher announces a locked account without holding a lock; all else is said under the swap lock. */
    predicate Announcement() { LockChanged? && locked }
  }

  datatype Control = Control(attempt: nat, committed: nat, locked: bool, session: Option<Session>,
      emitted: seq<Notice>) {
    function Claim(): Control { this.(attempt := attempt + 1) }

    /** Logout, shutdown, a cache reset and a rejection all outdate every generation so far. */
    function Invalidate(): Control { this.(attempt := attempt + 1, committed := attempt + 1) }

    function Take(): Control { this.(session := None) }

    function Commit(generation: nat): Control { this.(committed := generation) }

    function Install(account: AccountId, generation: nat): Control {
      this.(session := Some(Session(account, generation)))
    }

    function Emit(notice: Notice): Control { this.(emitted := emitted + [notice]) }

    function EmitIfCurrent(notice: Notice): Control {
      if committed == notice.generation then Emit(notice) else this
    }

    function Unlock(account: AccountId, generation: nat): Control {
      this.(locked := false).EmitIfCurrent(LockChanged(account, generation, false))
    }

    /** The session of the committed generation is the one installed. */
    predicate Live() { session.Some? && session.value.generation == committed }
  }

  /** The state the tasks share; each method is what a task does without awaiting. */
  class SessionController {
    var attempt: nat
    var committed: nat
    var locked: bool
    var session: Option<Session>
    var emitted: seq<Notice>

    function State(): Control
      reads this
    {
      Control(attempt, committed, locked, session, emitted)
    }

    constructor ()
      ensures State() == Start()
    {
      attempt, committed, locked, session, emitted := 1, 1, false, None, [];
    }

    method ClaimSessionGeneration() returns (generation: nat)
      modifies this`attempt
      ensures State() == old(State()).Claim() && generation == attempt
    {
      attempt := attempt + 1;
      generation := attempt;
    }

    method InvalidateSession()
      modifies this`attempt, this`committed
      ensures State() == old(State()).Invalidate()
    {
      attempt := attempt + 1;
      var invalidated := attempt;
      committed := invalidated;
    }

    /** A rejection that got the transition: it ends its own generation or nothing. */
    method RetireIfCurrent(generation: nat) returns (retired: bool)
      modifies this`attempt, this`committed
      ensures retired <==> old(committed) == generation
      ensures State() == if retired then old(State()).Invalidate() else old(State())
    {
      if committed != generation { return false; }
      InvalidateSession();
      return true;
    }

    method TakeSession() returns (taken: Option<Session>)
      modifies this`session
      ensures State() == old(State()).Take() && taken == old(session)
    {
      taken := session;
      session := None;
    }

    method CommitGeneration(generation: nat)
      modifies this`committed
      ensures State() == old(State()).Commit(generation)
    {
      committed := generation;
    }

    method Emit(notice: Notice)
      modifies this`emitted
      ensures State() == old(State()).Emit(notice)
    {
      emitted := emitted + [notice];
    }

    /** For those that hold the swap lock; without it another task may run between the two lines. */
    method EmitIfCurrent(notice: Notice)
      modifies this`emitted
      ensures State() == old(State()).EmitIfCurrent(notice)
    {
      if committed != notice.generation { return; }
      Emit(notice);
    }

    method UnlockAccount(account: AccountId, generation: nat)
      modifies this`locked, this`emitted
      ensures State() == old(State()).Unlock(account, generation)
    {
      locked := false;
      EmitIfCurrent(LockChanged(account, generation, false));
    }

    method InstallSession(account: AccountId, generation: nat)
      modifies this`session
      ensures State() == old(State()).Install(account, generation)
    {
      session := Some(Session(account, generation));
    }

    /** The second half of locking an account; the first half read the generation. */
    method SwapLocked() returns (was: bool)
      modifies this`locked
      ensures was == old(locked) && State() == old(State()).(locked := true)
    {
      was, locked := locked, true;
    }
  }

  function Start(): Control { Control(1, 1, false, None, []) }

  /** Where a task waits. `Claimed` to `Installed` start a session; `Ending` to `Ended` log out, shut
      down or reset; `Rejected` to `Retired` end a rejected session; the rest lock and unlock. */
  datatype Stage =
    | Claimed(account: AccountId, generation: nat)
    | Checked(account: AccountId, generation: nat)
    | Prepared(account: AccountId, generation: nat)
    | Emptied(account: AccountId, generation: nat)
    | Committed(account: AccountId, generation: nat)
    | Unlocked(account: AccountId, generation: nat)
    | Installed(account: AccountId, generation: nat)
    | Ending
    | Invalidated
    | Ended
    | Rejected(generation: nat)
    | RejectedActive(generation: nat)
    | Retiring(generation: nat)
    | Retired(generation: nat, retiree: Option<AccountId>)
    | Locking(generation: nat)
    | Watching(generation: nat)
    | Looked(account: AccountId, generation: nat)
    | Announcing(account: AccountId, generation: nat)
    | Probing(account: AccountId, generation: nat)
    | Confirmed(account: AccountId, generation: nat)
    | ConfirmedActive(account: AccountId, generation: nat)
    | Unlocking(account: AccountId, generation: nat)
  {
    predicate HoldsActivation() {
      !(Rejected? || Locking? || Watching? || Looked? || Announcing? || Probing? || Confirmed?)
    }

    predicate HoldsSwap() {
      HoldsActivation() && !(Claimed? || Ending? || RejectedActive? || ConfirmedActive?)
    }

    /** Waits for something, so it is dropped with the session it watches. */
    predicate Tracked() { Watching? || Looked? || Probing? || Confirmed? || ConfirmedActive? }

    /** Will unlock or end the generation. */
    predicate Attends(g: nat) { (Tracked() || Announcing? || Rejected? || RejectedActive?) && generation == g }
  }

  /** `store` holds the accounts, which a start writes when it prepares its client and others write at
      any time. `installs` is history: the account each generation was installed for. */
  datatype System = System(
    control: Control,
    activation: Option<TaskId>,
    swap: Option<TaskId>,
    tasks: map<TaskId, Stage>,
    installs: map<nat, AccountId>,
    store: AccountStore.Core)
  {
    function At(t: TaskId, stage: Stage): System { this.(tasks := tasks[t := stage]) }

    function Finish(t: TaskId): System {
      this.(tasks := tasks - {t},
            activation := if activation == Some(t) then None else activation,
            swap := if swap == Some(t) then None else swap)
    }
  }

  datatype Answer = Accepted | Refused | Unclear

  datatype Step =
    | Claim(task: TaskId, account: AccountId)
    | End(task: TaskId)
    | Reject(task: TaskId, generation: nat)
    | Lock(task: TaskId, generation: nat)
    | Activate(task: TaskId)
    | TakeSwap(task: TaskId)
    | Fail(task: TaskId)
    | Prepare(task: TaskId, client: ClientId, unreadable: set<AccountId>, registryOk: bool)
    | Take(task: TaskId)
    | Commit(task: TaskId)
    | ClearFlag(task: TaskId)
    | Install(task: TaskId)
    | Complete(task: TaskId)
    | Swap(task: TaskId)
    | Look(task: TaskId)
    | Check(task: TaskId)
    | Announce(task: TaskId)
    | Probe(task: TaskId, answer: Answer)
    | Abort(task: TaskId)
    | Other(task: TaskId, operation: AccountRuns.Step)

  function Initial(store: AccountStore.Core): System { System(Start(), None, None, map[], map[], store) }

  /** One step of one task; a step that is not enabled does nothing. */
  function Do(s: System, step: Step): System {
    var t := step.task;
    if step.Other? then s.(store := AccountRuns.Do(s.store, step.operation).after)
    else if step.Claim? || step.End? || step.Reject? || step.Lock? then (if t in s.tasks then s else Begin(s, step))
    else if t !in s.tasks then s
    else if step.TakeSwap? then (if s.swap.Some? then s else DoTakeSwap(s, t, s.tasks[t]))
    else if step.Swap? || step.Look? || step.Check? || step.Announce? || step.Probe? || step.Abort? then
      Watch(s, step, s.tasks[t])
    else Progress(s, step, s.tasks[t])
  }

  /** A task that replaces, ends or unlocks goes on. */
  function Progress(s: System, step: Step, stage: Stage): System {
    var c, t := s.control, step.task;
    match step
    case Activate(_) =>
      if s.activation.Some? then s
      else if stage.Rejected? then s.(activation := Some(t)).At(t, RejectedActive(stage.generation))
      else if stage.Confirmed? then s.(activation := Some(t)).At(t, ConfirmedActive(stage.account, stage.generation))
      else s
    case Fail(_) => if stage.Claimed? || stage.Checked? then s.Finish(t) else s
    case Prepare(_, client, unreadable, registryOk) =>
      if !stage.Checked? then s
      else
        var outcome := s.store.PrepareClient(client, stage.account, unreadable, registryOk);
        var tried := s.(store := outcome.after);
        if outcome.ok then tried.At(t, Prepared(stage.account, stage.generation)) else tried.Finish(t)
    case Take(_) => DoTake(s, t, stage)
    case Commit(_) =>
      if stage.Emptied?
        then s.(control := c.Commit(stage.generation)).At(t, Committed(stage.account, stage.generation)) else s
    case ClearFlag(_) =>
      if stage.Committed? then
        s.(control := c.Unlock(stage.account, stage.generation)).At(t, Unlocked(stage.account, stage.generation))
      else s
    case Install(_) =>
      if stage.Unlocked? then
        s.(control := c.Install(stage.account, stage.generation),
           installs := s.installs[stage.generation := stage.account])
         .At(t, Installed(stage.account, stage.generation))
      else s
    case Complete(_) =>
      if stage.Installed? || stage.Ended? then s.Finish(t)
      else if stage.Unlocking? then
        s.(control := c.EmitIfCurrent(LockChanged(stage.account, stage.generation, false))).Finish(t)
      else if stage.Retired? then
        s.(control := c.Emit(SessionEnded(stage.generation))).Finish(t)
      else s
    case _ => s
  }

  /** A task that locks an account or watches a locked one goes on. */
  function Watch(s: System, step: Step, stage: Stage): System {
    var c, t := s.control, step.task;
    match step
    case Swap(_) =>
      if !stage.Locking? then s
      else if c.locked then s.Finish(t)
      else s.(control := c.(locked := true)).At(t, Watching(stage.generation))
    case Look(_) =>
      if !stage.Watching? then s
      else if c.session.None? || c.committed != stage.generation then s.Finish(t)
      else s.At(t, Looked(c.session.value.account, stage.generation))
    case Check(_) =>
      if !stage.Looked? then s
      else if c.committed == stage.generation then s.At(t, Announcing(stage.account, stage.generation))
      else s.At(t, Probing(stage.account, stage.generation))
    case Announce(_) =>
      if stage.Announcing? then
        s.(control := c.Emit(LockChanged(stage.account, stage.generation, true)))
         .At(t, Probing(stage.account, stage.generation))
      else s
    case Probe(_, answer) =>
      if !stage.Probing? then s
      else if c.committed != stage.generation then s.Finish(t)
      else if answer.Refused? then s.At(t, Rejected(stage.generation))
      else if answer.Accepted? then s.At(t, Confirmed(stage.account, stage.generation))
      else s
    case Abort(_) =>
      if stage.Tracked() && !(c.session.Some? && c.session.value.generation == stage.generation) then s.Finish(t) else s
    case _ => s
  }

  /** Only a session that was installed is watched, so only its generation is rejected or locked. */
  function Begin(s: System, step: Step): System {
    match step
    case Claim(t, account) =>
      if s.activation.Some? then s
      else s.(control := s.control.Claim(), activation := Some(t)).At(t, Claimed(account, s.control.attempt + 1))
    case End(t) => if s.activation.Some? then s else s.(activation := Some(t)).At(t, Ending)
    case Reject(t, generation) =>
      if generation in s.installs && s.control.committed == generation then s.At(t, Rejected(generation)) else s
    case Lock(t, generation) =>
      if generation in s.installs && s.control.committed == generation then s.At(t, Locking(generation)) else s
    case _ => s
  }

  function DoTakeSwap(s: System, t: TaskId, stage: Stage): System {
    var taken := s.(swap := Some(t));
    match stage
    case Claimed(account, g) => if s.control.attempt == g then taken.At(t, Checked(account, g)) else s.Finish(t)
    case Ending => taken.(control := s.control.Invalidate()).At(t, Invalidated)
    case RejectedActive(g) =>
      if s.control.committed == g then taken.(control := s.control.Invalidate()).At(t, Retiring(g)) else s.Finish(t)
    case ConfirmedActive(account, g) =>
      if s.control.committed == g
        then taken.(control := s.control.(locked := false)).At(t, Unlocking(account, g)) else s.Finish(t)
    case _ => s
  }

  function DoTake(s: System, t: TaskId, stage: Stage): System {
    var taken := s.(control := s.control.Take());
    match stage
    case Prepared(account, g) => taken.At(t, Emptied(account, g))
    case Invalidated => taken.At(t, Ended)
    case Retiring(g) =>
      taken.At(t, Retired(g, if s.control.session.Some? then Some(s.control.session.value.account) else None))
    case _ => s
  }

  function Run(s: System, steps: seq<Step>): System {
    if steps == [] then s else Do(Run(s, steps[..|steps| - 1]), steps[|steps| - 1])
  }

  // ---- what every step keeps ----

  ghost predicate LocksMatch(s: System) {
    forall t :: TaskLocks(s, t)
  }

  ghost predicate TaskLocks(s: System, t: TaskId) {
    && ((t in s.tasks && s.tasks[t].HoldsActivation()) <==> s.activation == Some(t))
    && ((t in s.tasks && s.tasks[t].HoldsSwap()) <==> s.swap == Some(t))
  }

  /** No one is replacing or ending the session: it belongs to the committed generation. */
  ghost predicate Settled(c: Control, installs: map<nat, AccountId>) {
    && (c.session.Some? ==> c.session.value.generation == c.committed)
    && (c.committed in installs ==> c.session.Some?)
  }

  ghost predicate StageFits(c: Control, installs: map<nat, AccountId>, stage: Stage) {
    match stage
    case Claimed(_, g) => c.attempt == g && c.committed < g
    case Checked(_, g) => c.attempt == g && c.committed < g && Settled(c, installs)
    case Prepared(_, g) => c.attempt == g && c.committed < g && Settled(c, installs)
    case Emptied(_, g) => c.attempt == g && c.committed < g && c.session.None?
    case Committed(_, g) => c.committed == g && c.session.None? && g !in installs
    case Unlocked(_, g) => c.committed == g && c.session.None? && g !in installs
    case Installed(account, g) => c.committed == g && c.session == Some(Session(account, g))
    case Ending => true
    case Invalidated => c.committed !in installs
    case Ended => c.session.None? && c.committed !in installs
    case Rejected(g) => g in installs
    case RejectedActive(g) => g in installs
    case Retiring(g) =>
      g in installs && g < c.committed && c.session == Some(Session(installs[g], g)) && c.committed !in installs
    case Retired(g, retiree) =>
      g in installs && g < c.committed && c.session.None? && retiree == Some(installs[g]) && c.committed !in installs
    case Locking(g) => g in installs
    case Watching(g) => g in installs
    case Looked(account, g) => g in installs && installs[g] == account
    case Announcing(account, g) => g in installs && installs[g] == account
    case Probing(account, g) => g in installs && installs[g] == account
    case Confirmed(account, g) => g in installs && installs[g] == account
    case ConfirmedActive(account, g) => g in installs && installs[g] == account
    case Unlocking(account, g) => g in installs && installs[g] == account && c.committed == g && Settled(c, installs)
  }

  ghost predicate TasksFit(s: System) {
    forall t :: t in s.tasks ==> StageFits(s.control, s.installs, s.tasks[t])
  }

  ghost predicate SessionFits(c: Control, installs: map<nat, AccountId>, swap: Option<TaskId>) {
    && c.committed <= c.attempt
    && (forall g :: g in installs ==> g <= c.committed)
    && (c.session.Some? ==>
      c.session.value.generation in installs && installs[c.session.value.generation] == c.session.value.account)
    && (c.session.Some? && c.committed in installs ==> c.Live())
    && (swap.None? ==> Settled(c, installs))
  }

  /** What is said under the swap lock comes in the order of generations, and an end ends its own. */
  ghost predicate Ordered(emitted: seq<Notice>) {
    forall i, j :: 0 <= i < j < |emitted| && !emitted[i].Announcement() && !emitted[j].Announcement() ==>
      if emitted[i].SessionEnded? then emitted[i].generation < emitted[j].generation
      else emitted[i].generation <= emitted[j].generation
  }

  ghost predicate Before(emitted: seq<Notice>, g: nat) {
    forall i :: 0 <= i < |emitted| && !emitted[i].Announcement() ==>
      if emitted[i].SessionEnded? then emitted[i].generation < g else emitted[i].generation <= g
  }

  /** The newest generation a notice may still speak of: a rejected one until its session has ended. */
  function Newest(s: System): nat {
    if s.swap.Some? && s.swap.value in s.tasks && (s.tasks[s.swap.value].Retiring? || s.tasks[s.swap.value].Retired?)
    then s.tasks[s.swap.value].generation else s.control.committed
  }

  ghost predicate NoticesFit(s: System) {
    Ordered(s.control.emitted) && Before(s.control.emitted, Newest(s))
  }

  ghost predicate Invariant(s: System) {
    LocksMatch(s) && TasksFit(s) && SessionFits(s.control, s.installs, s.swap) && NoticesFit(s)
  }

  /** A step takes and frees locks for its own task only. */
  lemma OwnLocks(s: System, step: Step)
    requires TaskLocks(s, step.task)
    ensures var t, after := step.task, Do(s, step);
      && TaskLocks(after, t)
      && (after.activation == s.activation || {s.activation, after.activation} == {None, Some(t)})
      && (after.swap == s.swap || {s.swap, after.swap} == {None, Some(t)})
  {
    hide AccountStore.Core.PrepareClient, AccountRuns.Do;
  }

  lemma OnlyOwnTask(s: System, step: Step)
    ensures forall u :: u != step.task ==>
      (u in s.tasks <==> u in Do(s, step).tasks) && (u in s.tasks ==> Do(s, step).tasks[u] == s.tasks[u])
  {
    hide AccountStore.Core.PrepareClient, AccountRuns.Do;
  }

  lemma StepKeepsLocks(s: System, step: Step)
    requires LocksMatch(s)
    ensures LocksMatch(Do(s, step))
  {
    hide Do;
    var t, after := step.task, Do(s, step);
    OwnLocks(s, step);
    OnlyOwnTask(s, step);
    forall u ensures TaskLocks(after, u) {
      assert TaskLocks(s, u);
      if u != t {
        assert Some(u) !in {None, Some(t)};
      }
    }
  }

  /** Tasks without locks rely on history alone, so whoever holds the locks may change the rest. */
  lemma OthersFit(s: System, after: System, t: TaskId)
    requires LocksMatch(s) && TasksFit(s)
    requires forall g :: g in s.installs ==> g in after.installs && after.installs[g] == s.installs[g]
    requires s.activation.None? || s.activation == Some(t) || SameSession(s, after)
    ensures forall u :: u != t && u in s.tasks ==> StageFits(after.control, after.installs, s.tasks[u])
  {
    forall u | u != t && u in s.tasks ensures StageFits(after.control, after.installs, s.tasks[u]) {
      assert TaskLocks(s, u);
    }
  }

  /** What the invariant says of one task. */
  ghost predicate Placed(s: System, t: TaskId) {
    && SessionFits(s.control, s.installs, s.swap)
    && (t in s.tasks ==> StageFits(s.control, s.installs, s.tasks[t]))
    && TaskLocks(s, t)
    && (s.activation.None? ==> s.swap.None?)
  }

  lemma InvariantPlaces(s: System, t: TaskId)
    requires LocksMatch(s) && TasksFit(s) && SessionFits(s.control, s.installs, s.swap)
    ensures Placed(s, t)
  {
    if s.swap.Some? { assert TaskLocks(s, s.swap.value); }
  }

  lemma BeginFits(s: System, step: Step)
    requires Placed(s, step.task) && step.task !in s.tasks
    ensures Fits(s, Begin(s, step), step.task)
  {
  }

  lemma ProgressFits(s: System, step: Step)
    requires Placed(s, step.task) && step.task in s.tasks && !step.Take? && !step.Complete? && !step.Fail?
    ensures Fits(s, Progress(s, step, s.tasks[step.task]), step.task)
  {
  }

  lemma EndFits(s: System, step: Step)
    requires Placed(s, step.task) && step.task in s.tasks && (step.Complete? || step.Fail?)
    ensures Fits(s, Progress(s, step, s.tasks[step.task]), step.task)
  {
  }

  lemma TakeFits(s: System, step: Step)
    requires Placed(s, step.task) && step.task in s.tasks && step.Take?
    ensures Fits(s, Progress(s, step, s.tasks[step.task]), step.task)
  {
  }

  lemma TakeSwapFits(s: System, t: TaskId)
    requires Placed(s, t) && t in s.tasks && s.swap.None?
    ensures Fits(s, DoTakeSwap(s, t, s.tasks[t]), t)
  {
  }

  lemma StillFits(s: System, t: TaskId)
    requires Placed(s, t)
    ensures Fits(s, s, t)
  {
  }

  lemma LockFits(s: System, step: Step)
    requires Placed(s, step.task) && step.task in s.tasks && (step.Swap? || step.Look?)
    ensures Fits(s, Watch(s, step, s.tasks[step.task]), step.task)
  {
  }

  lemma AnnounceFits(s: System, step: Step)
    requires Placed(s, step.task) && step.task in s.tasks && (step.Check? || step.Announce?)
    ensures Fits(s, Watch(s, step, s.tasks[step.task]), step.task)
  {
  }

  lemma ProbeFits(s: System, step: Step)
    requires Placed(s, step.task) && step.task in s.tasks && (step.Probe? || step.Abort?)
    ensures Fits(s, Watch(s, step, s.tasks[step.task]), step.task)
  {
  }

  /** The store is no part of what fits. */
  lemma StoreFits(s: System, store: AccountStore.Core, t: TaskId)
    requires Placed(s, t)
    ensures Fits(s, s.(store := store), t)
  {
  }

  /** What a step leaves right about its own task, and what it may change for the others. */
  ghost predicate Fits(s: System, after: System, t: TaskId) {
    && SessionFits(after.control, after.installs, after.swap)
    && (t in after.tasks ==> StageFits(after.control, after.installs, after.tasks[t]))
    && (forall g :: g in s.installs ==> g in after.installs && after.installs[g] == s.installs[g])
    && (s.activation.None? || s.activation == Some(t) || SameSession(s, after))
  }

  ghost predicate SameSession(s: System, after: System) {
    && after.control.attempt == s.control.attempt && after.control.committed == s.control.committed
    && after.control.session == s.control.session && after.installs == s.installs
  }

  lemma StepFits(s: System, step: Step)
    requires LocksMatch(s) && TasksFit(s) && SessionFits(s.control, s.installs, s.swap)
    ensures TasksFit(Do(s, step)) && SessionFits(Do(s, step).control, Do(s, step).installs, Do(s, step).swap)
  {
    hide Begin, Progress, Watch, DoTake, DoTakeSwap, LocksMatch, StageFits, SessionFits, Placed;
    var t, after := step.task, Do(s, step);
    InvariantPlaces(s, t);
    StillFits(s, t);
    StoreFits(s, after.store, t);
    if step.Other? {}
    else if t !in s.tasks { BeginFits(s, step); }
    else if step.TakeSwap? && s.swap.None? { TakeSwapFits(s, t); }
    else if step.Take? { TakeFits(s, step); }
    else if step.Complete? || step.Fail? { EndFits(s, step); }
    else if step.Swap? || step.Look? { LockFits(s, step); }
    else if step.Check? || step.Announce? { AnnounceFits(s, step); }
    else if step.Probe? || step.Abort? { ProbeFits(s, step); }
    else { ProgressFits(s, step); }
    OthersFit(s, after, t);
    OnlyOwnTask(s, step);
  }

  lemma {:induction false} Appended(emitted: seq<Notice>, notice: Notice, g: nat)
    requires Ordered(emitted) && Before(emitted, notice.generation)
    requires notice.generation <= g && (notice.SessionEnded? ==> notice.generation < g)
    ensures Ordered(emitted + [notice]) && Before(emitted + [notice], g)
  {
  }

  lemma {:induction false} Announced(emitted: seq<Notice>, notice: Notice, g: nat, later: nat)
    requires Ordered(emitted) && Before(emitted, g) && g <= later && notice.Announcement()
    ensures Ordered(emitted + [notice]) && Before(emitted + [notice], later)
  {
  }

  /** What is said under the swap lock is of the newest generation, and an end leaves only newer ones
      to speak of. */
  ghost predicate Speaks(s: System, after: System) {
    var emitted := s.control.emitted;
    && Newest(s) <= Newest(after)
    && (after.control.emitted != emitted ==>
          && |after.control.emitted| > 0
          && var notice := after.control.emitted[|after.control.emitted| - 1];
             && after.control.emitted == emitted + [notice]
             && (!notice.Announcement() ==> notice.generation == Newest(s))
             && (notice.SessionEnded? ==> Newest(s) < Newest(after)))
  }

  lemma BeginSpeaks(s: System, step: Step)
    requires step.task !in s.tasks && (s.swap.Some? ==> Placed(s, s.swap.value))
    ensures Speaks(s, Begin(s, step))
  {
  }

  lemma StoreSpeaks(s: System, store: AccountStore.Core)
    ensures Speaks(s, s.(store := store))
  {
  }

  lemma ProgressSpeaks(s: System, step: Step)
    requires Placed(s, step.task) && (s.swap.Some? ==> Placed(s, s.swap.value)) && step.task in s.tasks
    ensures Speaks(s, Progress(s, step, s.tasks[step.task]))
  {
  }

  lemma TakeSwapSpeaks(s: System, t: TaskId)
    requires Placed(s, t) && t in s.tasks && s.swap.None?
    ensures Speaks(s, DoTakeSwap(s, t, s.tasks[t]))
  {
  }

  lemma WatchSpeaks(s: System, step: Step)
    requires Placed(s, step.task) && (s.swap.Some? ==> Placed(s, s.swap.value)) && step.task in s.tasks
    ensures Speaks(s, Watch(s, step, s.tasks[step.task]))
  {
  }

  lemma StepSpeaks(s: System, step: Step)
    requires LocksMatch(s) && TasksFit(s) && SessionFits(s.control, s.installs, s.swap)
    ensures Speaks(s, Do(s, step))
  {
    hide Begin, Progress, Watch, DoTakeSwap, LocksMatch, TasksFit, SessionFits, Placed, Speaks;
    InvariantPlaces(s, step.task);
    if s.swap.Some? { InvariantPlaces(s, s.swap.value); }
    StoreSpeaks(s, s.store);
    StoreSpeaks(s, Do(s, step).store);
    if step.task in s.tasks {
      if s.swap.None? { TakeSwapSpeaks(s, step.task); }
      ProgressSpeaks(s, step);
      WatchSpeaks(s, step);
    } else { BeginSpeaks(s, step); }
  }

  lemma StepKeepsNotices(s: System, step: Step)
    requires Invariant(s)
    ensures NoticesFit(Do(s, step))
  {
    hide Do, LocksMatch, TasksFit, SessionFits, Ordered, Newest;
    var after := Do(s, step);
    StepSpeaks(s, step);
    if after.control.emitted != s.control.emitted {
      var notice := after.control.emitted[|after.control.emitted| - 1];
      if notice.Announcement() { Announced(s.control.emitted, notice, Newest(s), Newest(after)); }
      else { Appended(s.control.emitted, notice, Newest(after)); }
    }
  }

  lemma StepKeeps(s: System, step: Step)
    requires Invariant(s)
    ensures Invariant(Do(s, step))
  {
    hide Do, LocksMatch, TasksFit, SessionFits, NoticesFit;
    StepKeepsLocks(s, step);
    StepFits(s, step);
    StepKeepsNotices(s, step);
  }
}
