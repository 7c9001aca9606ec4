/** The order in which the core's operations nest their locks, and what it buys: whatever runs
    together, some operation can always go on. */
module LockOrder {
  type TaskId(==, !new)
  type StoreId(==, !new)

  datatype Kind = Restore | Lease | Activation | Swap | SessionStore | Accounts | Clients | Writers

  function Rank(kind: Kind): nat {
    match kind
    case Restore => 0
    case Lease => 1
    case Activation => 2
    case Swap => 3
    case SessionStore => 4
    case Accounts => 5
    case Clients => 6
    case Writers => 7
  }

  /** What an operation does with locks, in order; its other work happens between. */
  datatype Code =
    | Done
    | Take(kind: Kind, next: Code)
    | Drop(kind: Kind, next: Code)

  // ---- the operations ----

  function Briefly(kind: Kind, next: Code): Code { Take(kind, Drop(kind, next)) }

  /** `invalidate_account_client` */
  function Invalidate(next: Code): Code { Briefly(Writers, Briefly(Clients, next)) }

  /** Loading the registry, or only looking a store up in it. */
  function ReadAccounts(next: Code): Code { Briefly(Accounts, next) }

  /** `persist`, `mark_account_needs_reauth`, `remove_account` */
  function ChangeRegistry(next: Code): Code {
    Take(SessionStore, Take(Accounts, Invalidate(Drop(Accounts, Drop(SessionStore, next)))))
  }

  function ClearPersisted(next: Code): Code { Briefly(SessionStore, next) }

  function Prepare(next: Code): Code {
    Take(SessionStore,
        Take(Accounts, Take(Clients, Briefly(Writers, Drop(Clients, Drop(Accounts, Drop(SessionStore, next)))))))
  }

  function SavedClient(next: Code): Code { Briefly(Clients, Briefly(Writers, Briefly(Clients, next))) }

  function StartSession(next: Code): Code { Take(Swap, Prepare(ReadAccounts(Drop(Swap, next)))) }

  /** `restore`, `switch_account` */
  function RestoreSession(next: Code): Code {
    Take(Restore, ReadAccounts(Take(Lease, SavedClient(Take(Activation,
      StartSession(Drop(Activation, Drop(Lease, Drop(Restore, next)))))))))
  }

  /** The generation's guard goes to the caller, which drops it after the lease is gone. */
  function SignIn(next: Code): Code {
    ReadAccounts(Take(Lease, Take(Activation, ChangeRegistry(StartSession(Drop(Lease, Drop(Activation, next)))))))
  }

  /** A session transition; its two guards go in the order they are declared. */
  function EndTransition(next: Code): Code { Drop(Activation, Drop(Swap, next)) }

  function InvalidateAll(accounts: nat, next: Code): Code {
    if accounts == 0 then next else Invalidate(InvalidateAll(accounts - 1, next))
  }

  function ResetAll(accounts: nat, next: Code): Code {
    if accounts == 0 then next else Briefly(Clients, Invalidate(ResetAll(accounts - 1, next)))
  }

  datatype Operation =
    | RestoreOrSwitch
    | FinishSignIn
    | EndSession(clears: bool)
    | Shutdown(accounts: nat)
    | ResetCache(accounts: nat)
    | UnlockAccount
    | SaveRefreshed
    | RemoveInactive
    | PushClient
    | ListAccounts

  function Program(op: Operation): Code {
    match op
    case RestoreOrSwitch => RestoreSession(Done)
    case FinishSignIn => SignIn(Done)
    case EndSession(clears) =>
      Take(Activation,
          Take(Swap, if clears then ClearPersisted(EndTransition(Done)) else ChangeRegistry(EndTransition(Done))))
    case Shutdown(accounts) =>
      Take(Restore,
          Take(Activation, Take(Swap, Briefly(Clients, InvalidateAll(accounts, EndTransition(Drop(Restore, Done)))))))
    case ResetCache(accounts) =>
      Take(Restore, Take(Activation, Take(Swap, ReadAccounts(ResetAll(accounts,
        EndTransition(Drop(Restore, RestoreSession(Done))))))))
    case UnlockAccount => Take(Activation, Take(Swap, EndTransition(Done)))
    case SaveRefreshed => Take(SessionStore, Briefly(Writers, Briefly(Accounts, Drop(SessionStore, Done))))
    case RemoveInactive => ReadAccounts(ChangeRegistry(Done))
    case PushClient => Briefly(Restore, ReadAccounts(Take(Lease, SavedClient(Drop(Lease, Done)))))
    case ListAccounts => ReadAccounts(Done)
  }

  // ---- every operation takes its locks in rank order ----

  ghost predicate Above(kind: Kind, held: set<Kind>) {
    forall other :: other in held ==> Rank(other) < Rank(kind)
  }

  ghost predicate Ranked(code: Code, held: set<Kind>) {
    match code
    case Done => held == {}
    case Take(kind, next) => Above(kind, held) && Ranked(next, held + {kind})
    case Drop(kind, next) => kind in held && Ranked(next, held - {kind})
  }

  lemma BrieflyRanked(kind: Kind, next: Code, held: set<Kind>)
    requires Above(kind, held) && Ranked(next, held)
    ensures Ranked(Briefly(kind, next), held)
  {
    assert held + {kind} - {kind} == held;
  }

  lemma InvalidateRanked(next: Code, held: set<Kind>)
    requires Above(Clients, held) && Ranked(next, held)
    ensures Ranked(Invalidate(next), held)
  {
    BrieflyRanked(Clients, next, held);
    BrieflyRanked(Writers, Briefly(Clients, next), held);
  }

  lemma ChangeRegistryRanked(next: Code, held: set<Kind>)
    requires Above(SessionStore, held) && Ranked(next, held)
    ensures Ranked(ChangeRegistry(next), held)
  {
    var inside := held + {SessionStore} + {Accounts};
    assert inside - {Accounts} == held + {SessionStore} && held + {SessionStore} - {SessionStore} == held;
    InvalidateRanked(Drop(Accounts, Drop(SessionStore, next)), inside);
  }

  lemma PrepareRanked(next: Code, held: set<Kind>)
    requires Above(SessionStore, held) && Ranked(next, held)
    ensures Ranked(Prepare(next), held)
  {
    var registry := held + {SessionStore} + {Accounts};
    assert registry + {Clients} - {Clients} == registry;
    assert registry - {Accounts} == held + {SessionStore} && held + {SessionStore} - {SessionStore} == held;
    BrieflyRanked(Writers, Drop(Clients, Drop(Accounts, Drop(SessionStore, next))), registry + {Clients});
  }

  lemma SavedClientRanked(next: Code, held: set<Kind>)
    requires Above(Clients, held) && Ranked(next, held)
    ensures Ranked(SavedClient(next), held)
  {
    BrieflyRanked(Clients, next, held);
    BrieflyRanked(Writers, Briefly(Clients, next), held);
    BrieflyRanked(Clients, Briefly(Writers, Briefly(Clients, next)), held);
  }

  lemma StartSessionRanked(next: Code, held: set<Kind>)
    requires Above(Swap, held) && Ranked(next, held)
    ensures Ranked(StartSession(next), held)
  {
    assert held + {Swap} - {Swap} == held;
    BrieflyRanked(Accounts, Drop(Swap, next), held + {Swap});
    PrepareRanked(ReadAccounts(Drop(Swap, next)), held + {Swap});
  }

  lemma RestoreSessionRanked(next: Code)
    requires Ranked(next, {})
    ensures Ranked(RestoreSession(next), {})
  {
    var inside := {Restore, Lease, Activation};
    assert {Restore, Lease} + {Activation} == inside && inside - {Activation} - {Lease} - {Restore} == {};
    var ending := Drop(Activation, Drop(Lease, Drop(Restore, next)));
    assert Ranked(ending, inside);
    StartSessionRanked(ending, inside);
    assert {Restore} + {Lease} == {Restore, Lease};
    SavedClientRanked(Take(Activation, StartSession(ending)), {Restore, Lease});
    BrieflyRanked(Accounts, Take(Lease, SavedClient(Take(Activation, StartSession(ending)))), {Restore});
    assert {} + {Restore} == {Restore};
  }

  lemma SignInRanked()
    ensures Ranked(SignIn(Done), {})
  {
    var ending := Drop(Lease, Drop(Activation, Done));
    assert {Lease} + {Activation} == {Lease, Activation} && {Lease, Activation} - {Lease} - {Activation} == {};
    assert Ranked(ending, {Lease, Activation});
    StartSessionRanked(ending, {Lease, Activation});
    ChangeRegistryRanked(StartSession(ending), {Lease, Activation});
    assert {} + {Lease} == {Lease};
    BrieflyRanked(Accounts, Take(Lease, Take(Activation, ChangeRegistry(StartSession(ending)))), {});
  }

  lemma {:induction false} InvalidateAllRanked(accounts: nat, next: Code, held: set<Kind>)
    requires Above(Clients, held) && Ranked(next, held)
    ensures Ranked(InvalidateAll(accounts, next), held) && Ranked(ResetAll(accounts, next), held)
  {
    if accounts > 0 {
      InvalidateAllRanked(accounts - 1, next, held);
      InvalidateRanked(InvalidateAll(accounts - 1, next), held);
      InvalidateRanked(ResetAll(accounts - 1, next), held);
      BrieflyRanked(Clients, Invalidate(ResetAll(accounts - 1, next)), held);
    }
  }

  lemma EndTransitionRanked(next: Code, held: set<Kind>)
    requires held <= {Restore} && Ranked(next, held)
    ensures Ranked(EndTransition(next), held + {Activation, Swap})
  {
    assert held + {Activation, Swap} - {Activation} - {Swap} == held;
  }

  lemma TransitionRanked(code: Code)
    ensures Ranked(code, {Activation, Swap}) ==> Ranked(Take(Activation, Take(Swap, code)), {})
    ensures Ranked(code, {Restore, Activation, Swap}) ==> Ranked(Take(Restore, Take(Activation, Take(Swap, code))), {})
  {
    assert {} + {Activation} + {Swap} == {Activation, Swap};
    assert {} + {Restore} + {Activation} + {Swap} == {Restore, Activation, Swap};
  }

  /** Shutting down, or resetting the cache and restoring after it. */
  lemma RestoringRanked(accounts: nat, next: Code)
    requires Ranked(next, {})
    ensures var ending := EndTransition(Drop(Restore, next));
      && Ranked(Take(Restore, Take(Activation, Take(Swap, Briefly(Clients, InvalidateAll(accounts, ending))))), {})
      && Ranked(Take(Restore, Take(Activation, Take(Swap, ReadAccounts(ResetAll(accounts, ending))))), {})
  {
    var ending, held := EndTransition(Drop(Restore, next)), {Restore, Activation, Swap};
    assert {Restore} - {Restore} == {};
    EndTransitionRanked(Drop(Restore, next), {Restore});
    assert {Restore} + {Activation, Swap} == held;
    InvalidateAllRanked(accounts, ending, held);
    BrieflyRanked(Clients, InvalidateAll(accounts, ending), held);
    BrieflyRanked(Accounts, ResetAll(accounts, ending), held);
    TransitionRanked(Briefly(Clients, InvalidateAll(accounts, ending)));
    TransitionRanked(ReadAccounts(ResetAll(accounts, ending)));
  }

  lemma EndSessionRanked(clears: bool)
    ensures Ranked(Program(EndSession(clears)), {})
  {
    var ending, held := EndTransition(Done), {Activation, Swap};
    EndTransitionRanked(Done, {});
    assert {} + held == held;
    ChangeRegistryRanked(ending, held);
    BrieflyRanked(SessionStore, ending, held);
    TransitionRanked(ending);
    TransitionRanked(ClearPersisted(ending));
    TransitionRanked(ChangeRegistry(ending));
  }

  /** Every operation takes each lock above all it holds, and ends holding none. */
  lemma EveryOperationIsRanked(op: Operation)
    ensures Ranked(Program(op), {})
  {
    match op
    case RestoreOrSwitch => RestoreSessionRanked(Done);
    case FinishSignIn => SignInRanked();
    case EndSession(clears) => EndSessionRanked(clears);
    case Shutdown(accounts) => RestoringRanked(accounts, Done);
    case ResetCache(accounts) =>
      RestoreSessionRanked(Done);
      RestoringRanked(accounts, RestoreSession(Done));
    case UnlockAccount =>
      EndTransitionRanked(Done, {});
      assert {} + {Activation, Swap} == {Activation, Swap};
      TransitionRanked(EndTransition(Done));
    case SaveRefreshed =>
      assert {} + {SessionStore} == {SessionStore} && {SessionStore} - {SessionStore} == {};
      BrieflyRanked(Accounts, Drop(SessionStore, Done), {SessionStore});
      BrieflyRanked(Writers, Briefly(Accounts, Drop(SessionStore, Done)), {SessionStore});
    case RemoveInactive =>
      ChangeRegistryRanked(Done, {});
      BrieflyRanked(Accounts, ChangeRegistry(Done), {});
    case PushClient => PushClientRanked();
    case ListAccounts => BrieflyRanked(Accounts, Done, {});
  }

  lemma PushClientRanked()
    ensures Ranked(Program(PushClient), {})
  {
    assert {} + {Lease} == {Lease} && {Lease} - {Lease} == {};
    SavedClientRanked(Drop(Lease, Done), {Lease});
    BrieflyRanked(Accounts, Take(Lease, SavedClient(Drop(Lease, Done))), {});
    BrieflyRanked(Restore, ReadAccounts(Take(Lease, SavedClient(Drop(Lease, Done)))), {});
  }

  // ---- any number of operations at once ----

  /** An operation under way: the account store it works on, what it has left to do, what it holds. */
  datatype Task = Task(store: StoreId, code: Code, held: set<Kind>)

  type Tasks = map<TaskId, Task>

  /** `Quit` is an early return, which drops what the operation holds. */
  datatype Step =
    | Spawn(task: TaskId, op: Operation, store: StoreId)
    | Advance(task: TaskId)
    | Quit(task: TaskId)

  /** A lease is of one store; the other locks are the core's. */
  predicate Holds(task: Task, kind: Kind, store: StoreId) {
    kind in task.held && (kind == Lease ==> task.store == store)
  }

  ghost predicate Waits(tasks: Tasks, t: TaskId, holder: TaskId) {
    && t in tasks && holder in tasks && tasks[t].code.Take?
    && Holds(tasks[holder], tasks[t].code.kind, tasks[t].store)
  }

  ghost predicate Blocked(tasks: Tasks, t: TaskId) {
    exists holder :: Waits(tasks, t, holder)
  }

  ghost function Do(tasks: Tasks, step: Step): Tasks {
    match step
    case Spawn(t, op, store) => if t in tasks then tasks else tasks[t := Task(store, Program(op), {})]
    case Advance(t) =>
      if t !in tasks || Blocked(tasks, t) then tasks
      else (match tasks[t].code
        case Done => tasks - {t}
        case Take(kind, next) => tasks[t := Task(tasks[t].store, next, tasks[t].held + {kind})]
        case Drop(kind, next) => tasks[t := Task(tasks[t].store, next, tasks[t].held - {kind})])
    case Quit(t) => tasks - {t}
  }

  ghost function Run(tasks: Tasks, steps: seq<Step>): Tasks
    decreases |steps|
  {
    if steps == [] then tasks else Run(Do(tasks, steps[0]), steps[1..])
  }

  ghost predicate Invariant(tasks: Tasks) {
    && (forall t :: t in tasks ==> Ranked(tasks[t].code, tasks[t].held))
    && (forall t, u, kind :: t in tasks && u in tasks && t != u && kind in tasks[t].held ==>
      !Holds(tasks[u], kind, tasks[t].store))
  }

  lemma StepKeeps(tasks: Tasks, step: Step)
    requires Invariant(tasks)
    ensures Invariant(Do(tasks, step))
  {
    if step.Spawn? { EveryOperationIsRanked(step.op); }
    if step.Advance? && step.task in tasks && !Blocked(tasks, step.task) {
      forall u | u in tasks ensures !Waits(tasks, step.task, u) {}
    }
  }

  lemma {:induction false} RunKeeps(tasks: Tasks, steps: seq<Step>)
    requires Invariant(tasks)
    ensures Invariant(Run(tasks, steps))
    decreases |steps|
  {
    if steps != [] {
      StepKeeps(tasks, steps[0]);
      RunKeeps(Do(tasks, steps[0]), steps[1..]);
    }
  }

  /** Whoever holds what a task waits for waits, if at all, for a higher lock. */
  lemma WaitsRise(tasks: Tasks, t: TaskId, holder: TaskId)
    requires Invariant(tasks) && Waits(tasks, t, holder)
    ensures holder != t
    ensures tasks[holder].code.Take? ==> Rank(tasks[t].code.kind) < Rank(tasks[holder].code.kind)
  {
  }

  lemma {:induction false} ChainsRise(tasks: Tasks, chain: seq<TaskId>)
    requires Invariant(tasks) && |chain| >= 2
    requires forall i :: 0 <= i < |chain| - 1 ==> Waits(tasks, chain[i], chain[i + 1])
    ensures var first, last := chain[0], chain[|chain| - 1];
      && first in tasks && last in tasks && tasks[first].code.Take?
      && (tasks[last].code.Take? ==> Rank(tasks[first].code.kind) < Rank(tasks[last].code.kind))
    decreases |chain|
  {
    assert Waits(tasks, chain[0], chain[0 + 1]);
    var n := |chain| - 2;
    WaitsRise(tasks, chain[n], chain[n + 1]);
    if |chain| > 2 { ChainsRise(tasks, chain[..n + 1]); }
  }

  /** No operations wait for each other in a circle, whatever ran before. */
  lemma {:induction false} NoWaitCycle(steps: seq<Step>, chain: seq<TaskId>)
    requires |chain| >= 2 && chain[0] == chain[|chain| - 1]
    ensures exists i :: 0 <= i < |chain| - 1 && !Waits(Run(map[], steps), chain[i], chain[i + 1])
  {
    var tasks := Run(map[], steps);
    RunKeeps(map[], steps);
    if forall i :: 0 <= i < |chain| - 1 ==> Waits(tasks, chain[i], chain[i + 1]) {
      ChainsRise(tasks, chain);
    }
  }

  lemma {:induction false} FindRunner(tasks: Tasks, t: TaskId) returns (runner: TaskId)
    requires Invariant(tasks) && t in tasks
    ensures runner in tasks && !Blocked(tasks, runner)
    decreases if tasks[t].code.Take? then 8 - Rank(tasks[t].code.kind) else 0
  {
    runner := t;
    if Blocked(tasks, t) {
      var holder :| Waits(tasks, t, holder);
      WaitsRise(tasks, t, holder);
      if Blocked(tasks, holder) { runner := FindRunner(tasks, holder); } else { runner := holder; }
    }
  }

  /** While operations are under way, one of them can go on. */
  lemma {:induction false} SomeoneCanStep(steps: seq<Step>)
    requires Run(map[], steps) != map[]
    ensures exists t :: t in Run(map[], steps) && !Blocked(Run(map[], steps), t)
  {
    var tasks := Run(map[], steps);
    RunKeeps(map[], steps);
    var t :| t in tasks;
    var runner := FindRunner(tasks, t);
  }

  // ---- and so they all end ----

  function Length(code: Code): nat {
    match code
    case Done => 1
    case Take(_, next) => 1 + Length(next)
    case Drop(_, next) => 1 + Length(next)
  }

  ghost function Work(tasks: Tasks): nat {
    if tasks == map[] then 0
    else
      var t :| t in tasks;
      Length(tasks[t].code) + Work(tasks - {t})
  }

  lemma {:induction false} WorkOf(tasks: Tasks, t: TaskId)
    requires t in tasks
    ensures Work(tasks) == Length(tasks[t].code) + Work(tasks - {t})
    decreases |tasks|
  {
    var u :| u in tasks && Work(tasks) == Length(tasks[u].code) + Work(tasks - {u});
    if u != t {
      WorkOf(tasks - {u}, t);
      WorkOf(tasks - {t}, u);
      assert tasks - {u} - {t} == tasks - {t} - {u};
    }
  }

  lemma AdvanceWorks(tasks: Tasks, t: TaskId)
    requires t in tasks && !Blocked(tasks, t)
    ensures Work(Do(tasks, Advance(t))) < Work(tasks)
  {
    var after := Do(tasks, Advance(t));
    WorkOf(tasks, t);
    if t in after {
      WorkOf(after, t);
      assert after - {t} == tasks - {t};
    }
  }

  /** Whatever is under way can be brought to its end by stepping operations alone, with no early return. */
  lemma {:induction false} AllCanFinish(tasks: Tasks) returns (steps: seq<Step>)
    requires Invariant(tasks)
    ensures Run(tasks, steps) == map[] && forall i :: 0 <= i < |steps| ==> steps[i].Advance?
    decreases Work(tasks)
  {
    steps := [];
    if tasks != map[] {
      var t :| t in tasks;
      var runner := FindRunner(tasks, t);
      AdvanceWorks(tasks, runner);
      StepKeeps(tasks, Advance(runner));
      var rest := AllCanFinish(Do(tasks, Advance(runner)));
      steps := [Advance(runner)] + rest;
    }
  }
}
