/** What session generations promise over whole runs, and where a late lock or notice breaks it. */
module SessionRuns {
  import opened Options
  import opened SessionControl
  import AccountStore
  import AccountRuns

  type Store = AccountStore.Core

  lemma {:induction false} RunKeeps(s: System, steps: seq<Step>)
    requires Invariant(s)
    ensures Invariant(Run(s, steps))
    decreases |steps|
  {
    if steps != [] {
      RunKeeps(s, steps[..|steps| - 1]);
      StepKeeps(Run(s, steps[..|steps| - 1]), steps[|steps| - 1]);
    }
  }

  lemma {:induction false} Reachable(store: Store, steps: seq<Step>)
    ensures Invariant(Run(Initial(store), steps))
  {
    RunKeeps(Initial(store), steps);
  }

  lemma StepGrows(s: System, step: Step)
    requires Invariant(s)
    ensures var before, after := s.control, Do(s, step).control;
      before.attempt <= after.attempt && before.committed <= after.committed <= after.attempt
  {
    hide LocksMatch, Do;
    StepKeeps(s, step);
    InvariantPlaces(s, step.task);
    GrowsFrom(s, step);
  }

  lemma GrowsFrom(s: System, step: Step)
    requires Placed(s, step.task)
    ensures s.control.attempt <= Do(s, step).control.attempt && s.control.committed <= Do(s, step).control.committed
  {
    hide AccountStore.Core.PrepareClient, AccountRuns.Do;
  }

  lemma {:induction false} GenerationsOnlyGrow(s: System, steps: seq<Step>)
    requires Invariant(s)
    ensures var before, after := s.control, Run(s, steps).control;
      before.attempt <= after.attempt && before.committed <= after.committed <= after.attempt
    decreases |steps|
  {
    if steps != [] {
      GenerationsOnlyGrow(s, steps[..|steps| - 1]);
      RunKeeps(s, steps[..|steps| - 1]);
      StepGrows(Run(s, steps[..|steps| - 1]), steps[|steps| - 1]);
    }
  }

  /** The installed session is of the committed generation, unless the task that holds both locks has
      just outdated it and takes it next. */
  lemma {:induction false} InstalledIsCommitted(store: Store, steps: seq<Step>)
    ensures var s := Run(Initial(store), steps);
      s.control.session.Some? ==>
        || s.control.Live()
        || (s.swap.Some? && s.swap.value in s.tasks
          && (s.tasks[s.swap.value].Invalidated? || s.tasks[s.swap.value].Retiring?))
  {
    var s := Run(Initial(store), steps);
    Reachable(store, steps);
    if s.swap.Some? { assert TaskLocks(s, s.swap.value); }
  }

  /** A generation ends at most once, and what is said under the swap lock comes in the order of
      generations, nothing of a generation after its end. */
  lemma {:induction false} EndedOncePerGeneration(store: Store, steps: seq<Step>, i: nat, j: nat)
    requires i < j < |Run(Initial(store), steps).control.emitted|
    ensures var emitted := Run(Initial(store), steps).control.emitted;
      && (emitted[i].SessionEnded? && emitted[j].SessionEnded? ==> emitted[i].generation < emitted[j].generation)
      && (!emitted[i].Announcement() && !emitted[j].Announcement() ==> emitted[i].generation <= emitted[j].generation)
      && (emitted[i].SessionEnded? && emitted[j].generation == emitted[i].generation ==> emitted[j].Announcement())
  {
    Reachable(store, steps);
  }

  // ---- an announcement can come after the end of its generation ----

  predicate Ended(emitted: seq<Notice>, g: nat) { SessionEnded(g) in emitted }

  ghost predicate NoneFollowsItsEnd(emitted: seq<Notice>) {
    forall i, j :: 0 <= i < j < |emitted| && emitted[i].SessionEnded? ==> emitted[j].generation != emitted[i].generation
  }

  /** A watcher read its generation before that ended and speaks only now. */
  predicate SpeaksLate(s: System, step: Step) {
    && step.Announce? && step.task in s.tasks && s.tasks[step.task].Announcing?
    && Ended(s.control.emitted, s.tasks[step.task].generation)
  }

  /** Only an announcing watcher says anything without a lock. */
  lemma AnnouncersAnnounce(s: System, step: Step)
    ensures var before, after := s.control.emitted, Do(s, step).control.emitted;
      if step.Announce? && step.task in s.tasks && s.tasks[step.task].Announcing? then
        after == before + [LockChanged(s.tasks[step.task].account, s.tasks[step.task].generation, true)]
      else (after == before
            || (|after| == |before| + 1 && after[..|before|] == before && !after[|before|].Announcement()))
  {
    hide AccountStore.Core.PrepareClient, AccountRuns.Do;
  }

  lemma StepKeepsEndsExactlyWhen(s: System, step: Step)
    requires Invariant(s) && NoneFollowsItsEnd(s.control.emitted)
    ensures NoneFollowsItsEnd(Do(s, step).control.emitted) <==> !SpeaksLate(s, step)
  {
    hide Do, LocksMatch, TasksFit, SessionFits;
    StepKeeps(s, step);
    StepSpeaks(s, step);
    AnnouncersAnnounce(s, step);
    var before, after := s.control.emitted, Do(s, step).control.emitted;
    if after != before {
      var notice := after[|before|];
      if SpeaksLate(s, step) {
        var i :| 0 <= i < |before| && before[i] == SessionEnded(s.tasks[step.task].generation);
        assert after[i].SessionEnded? && after[|before|].generation == after[i].generation;
      } else if !notice.Announcement() {
        forall i | 0 <= i < |before| && before[i].SessionEnded? ensures before[i].generation != notice.generation {
          assert after[i] == before[i] && !after[i].Announcement();
        }
      } else {
        forall i | 0 <= i < |before| && before[i].SessionEnded? ensures before[i].generation != notice.generation {
          assert before[i] == SessionEnded(before[i].generation);
        }
      }
    }
  }

  ghost predicate NoneSpeaksLate(s: System, steps: seq<Step>) {
    steps != [] ==>
      NoneSpeaksLate(s, steps[..|steps| - 1]) && !SpeaksLate(Run(s, steps[..|steps| - 1]), steps[|steps| - 1])
  }

  /** In a run a notice follows the end of its generation exactly when an announcement speaks late. */
  lemma {:induction false} NoticesFollowEndsExactlyWhen(store: Store, steps: seq<Step>)
    ensures NoneFollowsItsEnd(Run(Initial(store), steps).control.emitted) <==> NoneSpeaksLate(Initial(store), steps)
    decreases |steps|
  {
    if steps != [] {
      hide Do, Invariant, NoneFollowsItsEnd, SpeaksLate;
      var before, step := Run(Initial(store), steps[..|steps| - 1]), steps[|steps| - 1];
      NoticesFollowEndsExactlyWhen(store, steps[..|steps| - 1]);
      Reachable(store, steps[..|steps| - 1]);
      if NoneFollowsItsEnd(before.control.emitted) { StepKeepsEndsExactlyWhen(before, step); }
      else { OnceFollowed(before, step); }
    }
  }

  lemma OnceFollowed(s: System, step: Step)
    requires Invariant(s) && !NoneFollowsItsEnd(s.control.emitted)
    ensures !NoneFollowsItsEnd(Do(s, step).control.emitted)
  {
    hide Do;
    AnnouncersAnnounce(s, step);
    StepSpeaks(s, step);
    var before, after := s.control.emitted, Do(s, step).control.emitted;
    var i, j :| 0 <= i < j < |before| && before[i].SessionEnded? && before[j].generation == before[i].generation;
    assert after[i] == before[i] && after[j] == before[j];
  }

  /** The step ends the generation's time as the committed one. */
  predicate Outdates(s: System, step: Step, g: nat) {
    s.control.committed == g && Do(s, step).control.committed != g
  }

  ghost predicate BetweenCheckAndEmit(s: System, t: TaskId, g: nat) {
    t in s.tasks && s.tasks[t].Announcing? && s.tasks[t].generation == g
  }

  /** An announcement of an outdated generation was between its check and its emit when that was
      outdated. */
  lemma {:induction false} OutdatedAnnouncementsWereChecked(store: Store, steps: seq<Step>, t: TaskId, g: nat)
    requires BetweenCheckAndEmit(Run(Initial(store), steps), t, g) && Run(Initial(store), steps).control.committed != g
    ensures exists m :: 0 <= m < |steps| && Outdates(Run(Initial(store), steps[..m]), steps[m], g)
                     && BetweenCheckAndEmit(Run(Initial(store), steps[..m]), t, g)
    decreases |steps|
  {
    var n := |steps| - 1;
    var before := Run(Initial(store), steps[..n]);
    CheckedWhenCommitted(before, steps[n], t, g);
    if before.control.committed == g {
      assert Outdates(Run(Initial(store), steps[..n]), steps[n], g);
    } else {
      OutdatedAnnouncementsWereChecked(store, steps[..n], t, g);
      var m :| 0 <= m < n && Outdates(Run(Initial(store), steps[..n][..m]), steps[..n][m], g)
            && BetweenCheckAndEmit(Run(Initial(store), steps[..n][..m]), t, g);
      assert steps[..n][..m] == steps[..m];
    }
  }

  lemma CheckedWhenCommitted(s: System, step: Step, t: TaskId, g: nat)
    requires BetweenCheckAndEmit(Do(s, step), t, g)
    ensures BetweenCheckAndEmit(s, t, g) || Do(s, step).control.committed == g
  {
    hide AccountStore.Core.PrepareClient, AccountRuns.Do;
  }

  lemma {:induction false} EndsAreOutdated(store: Store, steps: seq<Step>, g: nat)
    requires Ended(Run(Initial(store), steps).control.emitted, g)
    ensures Run(Initial(store), steps).control.committed != g
  {
    Reachable(store, steps);
    var s := Run(Initial(store), steps);
    if s.swap.Some? { InvariantPlaces(s, s.swap.value); }
    var i :| 0 <= i < |s.control.emitted| && s.control.emitted[i] == SessionEnded(g);
  }

  /** An announcement that speaks late was between its check and its emit when its generation was
      outdated. */
  lemma {:induction false} LateAnnouncementsWereChecked(store: Store, steps: seq<Step>, t: TaskId)
    requires SpeaksLate(Run(Initial(store), steps), Announce(t))
    ensures var g := Run(Initial(store), steps).tasks[t].generation;
      exists m :: 0 <= m < |steps| && Outdates(Run(Initial(store), steps[..m]), steps[m], g)
               && BetweenCheckAndEmit(Run(Initial(store), steps[..m]), t, g)
  {
    var g := Run(Initial(store), steps).tasks[t].generation;
    EndsAreOutdated(store, steps, g);
    OutdatedAnnouncementsWereChecked(store, steps, t, g);
  }

  /** And every announcement that is there then can speak late. */
  lemma CheckedAnnouncementsCanSpeakLate(s: System, r: TaskId, t: TaskId, g: nat)
    requires Invariant(s) && BetweenCheckAndEmit(s, t, g) && r in s.tasks && s.tasks[r].Retiring?
      && s.tasks[r].generation == g
    ensures FollowsEndOf(Do(Do(Do(s, Take(r)), Complete(r)), Announce(t)).control.emitted, g)
    ensures !NoneFollowsItsEnd(Do(Do(Do(s, Take(r)), Complete(r)), Announce(t)).control.emitted)
  {
    var n := |s.control.emitted|;
    var ended := Do(Do(s, Take(r)), Complete(r));
    assert TaskLocks(s, r) && TaskLocks(s, t);
    assert ended.control.emitted == s.control.emitted + [SessionEnded(g)];
    assert BetweenCheckAndEmit(ended, t, g);
    var emitted := Do(ended, Announce(t)).control.emitted;
    assert emitted[n].SessionEnded? && emitted[n + 1].generation == emitted[n].generation;
  }

  ghost predicate FollowsEndOf(emitted: seq<Notice>, g: nat) {
    exists i, j :: 0 <= i < j < |emitted| && emitted[i] == SessionEnded(g) && emitted[j].generation == g
  }

  /** The generation is over and no announcement of it is left to be emitted. */
  ghost predicate Silenced(s: System, g: nat) {
    && g < s.control.committed
    && (forall t :: !BetweenCheckAndEmit(s, t, g))
    && !FollowsEndOf(s.control.emitted, g)
  }

  lemma StepKeepsSilence(s: System, step: Step, g: nat)
    requires Invariant(s) && Silenced(s, g)
    ensures Silenced(Do(s, step), g)
  {
    hide Do, LocksMatch, TasksFit, SessionFits;
    StepKeeps(s, step);
    StepGrows(s, step);
    AnnouncersAnnounce(s, step);
    var before, after := s.control.emitted, Do(s, step).control.emitted;
    forall t ensures !BetweenCheckAndEmit(Do(s, step), t, g) {
      if BetweenCheckAndEmit(Do(s, step), t, g) { CheckedWhenCommitted(s, step, t, g); }
    }
    assert !BetweenCheckAndEmit(s, step.task, g);
    forall i, j | 0 <= i < j < |after| && after[i] == SessionEnded(g) ensures after[j].generation != g {
      assert !after[i].Announcement();
      if j < |before| { assert before == after[..|before|]; }
    }
  }

  lemma {:induction false} RunKeepsSilence(s: System, steps: seq<Step>, g: nat)
    requires Invariant(s) && Silenced(s, g)
    ensures Silenced(Run(s, steps), g)
    decreases |steps|
  {
    if steps != [] {
      RunKeepsSilence(s, steps[..|steps| - 1], g);
      RunKeeps(s, steps[..|steps| - 1]);
      StepKeepsSilence(Run(s, steps[..|steps| - 1]), steps[|steps| - 1], g);
    }
  }

  lemma {:induction false} RunThree(s: System, a: Step, b: Step, c: Step)
    ensures Run(s, [a, b, c]) == Do(Do(Do(s, a), b), c)
  {
    hide Do;
    assert [a, b, c][..2] == [a, b] && [a, b][..1] == [a] && [a][..0] == [];
    assert Run(s, [a]) == Do(s, a);
    assert Run(s, [a, b]) == Do(Run(s, [a]), b);
    assert Run(s, [a, b, c]) == Do(Run(s, [a, b]), c);
  }

  lemma AnnouncedLater(s: System, r: TaskId, t: TaskId, g: nat) returns (steps: seq<Step>)
    requires Invariant(s) && BetweenCheckAndEmit(s, t, g)
    requires r in s.tasks && s.tasks[r].Retiring? && s.tasks[r].generation == g
    ensures FollowsEndOf(Run(s, steps).control.emitted, g)
  {
    hide Do, Run, FollowsEndOf;
    steps := [Take(r), Complete(r), Announce(t)];
    CheckedAnnouncementsCanSpeakLate(s, r, t, g);
    RunThree(s, Take(r), Complete(r), Announce(t));
  }

  /** When a rejection has outdated a generation, some run from there has a notice follow its end
      exactly when an announcement of it is between its check and its emit. */
  lemma {:induction false} EndCanBeFollowedExactlyWhen(s: System, r: TaskId, g: nat)
    requires Invariant(s) && r in s.tasks && s.tasks[r].Retiring? && s.tasks[r].generation == g
    ensures (exists steps :: FollowsEndOf(Run(s, steps).control.emitted, g))
      <==> exists t :: BetweenCheckAndEmit(s, t, g)
  {
    hide Run, Do, FollowsEndOf, Invariant;
    if t :| BetweenCheckAndEmit(s, t, g) {
      var steps := AnnouncedLater(s, r, t, g);
    } else {
      RetiringSilences(s, r, g);
      forall steps ensures !FollowsEndOf(Run(s, steps).control.emitted, g) { RunKeepsSilence(s, steps, g); }
    }
  }

  lemma RetiringSilences(s: System, r: TaskId, g: nat)
    requires Invariant(s) && r in s.tasks && s.tasks[r].Retiring? && s.tasks[r].generation == g
    requires forall t :: !BetweenCheckAndEmit(s, t, g)
    ensures Silenced(s, g)
  {
    assert TaskLocks(s, r);
    assert Newest(s) == g;
  }

  /** A rejected token retires the account it was issued to; the branch without an account, which
      clears every account, is never taken. */
  lemma {:induction false} RejectionRetiresItsOwnAccount(store: Store, steps: seq<Step>, t: TaskId)
    requires t in Run(Initial(store), steps).tasks && Run(Initial(store), steps).tasks[t].Retired?
    ensures var s := Run(Initial(store), steps);
      s.tasks[t].generation in s.installs && s.tasks[t].retiree == Some(s.installs[s.tasks[t].generation])
  {
    Reachable(store, steps);
  }

  /** A rejection, a watcher or a probe of another generation touches neither session nor flag. */
  lemma StaleTasksChangeNothing(s: System, step: Step, g: nat)
    requires Invariant(s) && step.task in s.tasks && s.tasks[step.task].Attends(g) && g != s.control.committed
    ensures var after := Do(s, step);
      && after.control.(emitted := s.control.emitted) == s.control && after.installs == s.installs
      && (after.control.emitted != s.control.emitted ==> step.Announce?)
  {
    hide AccountStore.Core.PrepareClient, AccountRuns.Do;
    assert TaskLocks(s, step.task);
  }

  /** A claimed generation is still the newest when its start gets the swap lock. */
  lemma {:induction false} ClaimStaysNewest(store: Store, steps: seq<Step>, t: TaskId)
    requires t in Run(Initial(store), steps).tasks && Run(Initial(store), steps).tasks[t].Claimed?
      && Run(Initial(store), steps).swap.None?
    ensures t in Do(Run(Initial(store), steps), TakeSwap(t)).tasks
    ensures Do(Run(Initial(store), steps), TakeSwap(t)).tasks[t].Checked?
  {
    Reachable(store, steps);
  }

  // ---- a start that fails changes nothing ----

  /** The accounts as the operations of others alone leave them. */
  function OthersRun(store: Store, steps: seq<Step>): Store {
    if steps == [] then store
    else
      var before, step := OthersRun(store, steps[..|steps| - 1]), steps[|steps| - 1];
      if step.Other? then AccountRuns.Do(before, step.operation).after else before
  }

  ghost predicate Starting(s: System, t: TaskId, c: Control) {
    && t in s.tasks && (s.tasks[t].Claimed? || s.tasks[t].Checked?)
    && s.control.session == c.session && s.control.committed == c.committed
  }

  /** Only the holder of the activation lock changes the session or its generation, or prepares a client. */
  lemma OnlyTheHolderReplaces(s: System, step: Step)
    requires Invariant(s) && s.activation.Some? && s.activation != Some(step.task)
    ensures var after := Do(s, step);
      && after.control.session == s.control.session && after.control.committed == s.control.committed
      && after.control.attempt == s.control.attempt
      && (!step.Other? ==> after.store == s.store)
  {
    hide AccountStore.Core.PrepareClient, AccountRuns.Do;
    assert TaskLocks(s, step.task);
  }

  lemma StartingStays(s: System, step: Step, t: TaskId, c: Control)
    requires Invariant(s) && Starting(s, t, c) && (step.task == t ==> step.TakeSwap? || step.Other?)
    ensures Starting(Do(s, step), t, c)
    ensures Do(s, step).store == if step.Other? then AccountRuns.Do(s.store, step.operation).after else s.store
  {
    hide AccountStore.Core.PrepareClient, AccountRuns.Do;
    assert TaskLocks(s, t);
    if step.Other? {
    } else if step.task == t {
      assert StageFits(s.control, s.installs, s.tasks[t]);
    } else {
      OnlyTheHolderReplaces(s, step);
      OnlyOwnTask(s, step);
    }
  }

  lemma {:induction false} StartingRun(s: System, steps: seq<Step>, t: TaskId, c: Control)
    requires Invariant(s) && Starting(s, t, c)
    requires forall i :: 0 <= i < |steps| && steps[i].task == t ==> steps[i].TakeSwap? || steps[i].Other?
    ensures Starting(Run(s, steps), t, c) && Run(s, steps).store == OthersRun(s.store, steps)
    decreases |steps|
  {
    hide Do, Invariant, AccountRuns.Do;
    if steps != [] {
      StartingRun(s, steps[..|steps| - 1], t, c);
      RunKeeps(s, steps[..|steps| - 1]);
      StartingStays(Run(s, steps[..|steps| - 1]), steps[|steps| - 1], t, c);
    }
  }

  /** The step fails the start: it gives up, or cannot prepare its client. */
  predicate Fails(s: System, t: TaskId, step: Step) {
    || step == Fail(t)
    || (step.Prepare? && step.task == t && t in s.tasks && s.tasks[t].Checked?
        && !s.store.PrepareClient(step.client, s.tasks[t].account, step.unreadable, step.registryOk).ok)
  }

  /** From its claim to its failure a start leaves session, committed generation and saved accounts
      alone: no one else changes the first two, and the accounts are what others make of them. */
  lemma {:induction false} FailedStartChangesNothing(s: System, t: TaskId, account: AccountId, steps: seq<Step>,
      last: Step)
    requires Invariant(s) && s.activation.None? && t !in s.tasks
    requires forall i :: 0 <= i < |steps| && steps[i].task == t ==> steps[i].TakeSwap? || steps[i].Other?
    requires Fails(Run(Do(s, Claim(t, account)), steps), t, last)
    ensures var failed, store := Do(Run(Do(s, Claim(t, account)), steps), last), OthersRun(s.store, steps);
      && t !in failed.tasks && failed.activation != Some(t)
      && failed.control.session == s.control.session && failed.control.committed == s.control.committed
      && failed.store.disk == store.disk && failed.store.memory == store.memory
  {
    hide AccountStore.Core.PrepareClient, AccountRuns.Do, LocksMatch, TasksFit, SessionFits, NoticesFit;
    StepKeeps(s, Claim(t, account));
    StartingRun(Do(s, Claim(t, account)), steps, t, s.control);
    var before := Run(Do(s, Claim(t, account)), steps);
    if last.Prepare? {
      AccountRuns.FailedPreparationKeepsTheRegistry(
        before.store, last.client, before.tasks[t].account, last.unreadable, last.registryOk);
    }
  }

  // ---- a locked account is watched until it is unlocked or ended ----

  /** A start has cleared the flag and not installed its session yet. */
  predicate Clearing(s: System) {
    s.swap.Some? && s.swap.value in s.tasks && s.tasks[s.swap.value].Unlocked?
  }

  ghost predicate HasAttendant(s: System) {
    exists t :: t in s.tasks && s.tasks[t].Attends(s.control.committed)
  }

  /** While its session lives, a set lock flag has a task that will clear it or end the session. */
  ghost predicate Attended(s: System) {
    && (s.control.Live() && s.control.locked ==> HasAttendant(s))
    && (Clearing(s) ==> !s.control.locked)
  }

  /** The flag is not set late: after its generation was replaced by one that is running or about to. */
  ghost predicate Timely(s: System, step: Step) {
    step.Swap? && step.task in s.tasks && s.tasks[step.task].Locking? ==>
      || s.control.locked
      || s.tasks[step.task].generation == s.control.committed
      || !(s.control.Live() || Clearing(s))
      || (s.control.Live() && HasAttendant(s))
  }

  lemma AttendantStays(s: System, step: Step)
    requires Invariant(s) && step.task in s.tasks && s.tasks[step.task].Attends(s.control.committed)
    ensures var after, t := Do(s, step), step.task;
      after.control.Live() && after.control.locked ==>
        t in after.tasks && after.tasks[t].Attends(after.control.committed)
  {
    assert TaskLocks(s, step.task);
  }

  /** Becoming live or locked takes an install over a cleared flag, or the swap of a locker. */
  lemma OthersLeaveAttended(s: System, step: Step)
    requires Invariant(s) && Attended(s)
    requires !(step.Swap? && step.task in s.tasks && s.tasks[step.task].Locking?)
    ensures var after := Do(s, step);
      && (after.control.Live() && after.control.locked ==>
            s.control.Live() && s.control.locked && after.control.committed == s.control.committed)
      && (Clearing(after) ==> !after.control.locked)
  {
    hide Watch, Progress, LocksMatch, NoticesFit;
    InvariantPlaces(s, step.task);
    if s.swap.Some? { InvariantPlaces(s, s.swap.value); }
    if step.task in s.tasks {
      WatchLeavesAttended(s, step);
      ProgressLeavesAttended(s, step);
    }
  }

  /** As `OthersLeaveAttended`, for the tasks that only watch. */
  lemma WatchLeavesAttended(s: System, step: Step)
    requires Placed(s, step.task) && step.task in s.tasks && Attended(s)
    requires !(step.Swap? && s.tasks[step.task].Locking?)
    ensures var after := Watch(s, step, s.tasks[step.task]);
      && (after.control.Live() && after.control.locked ==>
            s.control.Live() && s.control.locked && after.control.committed == s.control.committed)
      && (Clearing(after) ==> !after.control.locked)
  {
  }

  /** As `OthersLeaveAttended`, for the tasks that replace, end or unlock. */
  lemma ProgressLeavesAttended(s: System, step: Step)
    requires Placed(s, step.task) && (s.swap.Some? ==> Placed(s, s.swap.value)) && step.task in s.tasks && Attended(s)
    ensures var after := Progress(s, step, s.tasks[step.task]);
      && (after.control.Live() && after.control.locked ==>
            s.control.Live() && s.control.locked && after.control.committed == s.control.committed)
      && (Clearing(after) ==> !after.control.locked)
  {
  }

  lemma AttendedExactlyWhen(s: System, step: Step)
    requires Invariant(s) && Attended(s)
    ensures Attended(Do(s, step)) <==> Timely(s, step)
  {
    var after := Do(s, step);
    if step.Swap? && step.task in s.tasks && s.tasks[step.task].Locking? {
      SwapAttendedExactlyWhen(s, step);
    } else {
      hide Do, Invariant, Clearing;
      OthersLeaveAttended(s, step);
      if after.control.Live() && after.control.locked {
        var t :| t in s.tasks && s.tasks[t].Attends(s.control.committed);
        if t == step.task { AttendantStays(s, step); }
        else {
          OnlyOwnTask(s, step);
          assert after.tasks[t] == s.tasks[t];
        }
      }
    }
  }

  lemma SwapAttendedExactlyWhen(s: System, step: Step)
    requires Invariant(s) && Attended(s)
    requires step.Swap? && step.task in s.tasks && s.tasks[step.task].Locking?
    ensures Attended(Do(s, step)) <==> Timely(s, step)
  {
    var after, t := Do(s, step), step.task;
    if s.swap.Some? { assert TaskLocks(s, s.swap.value); }
    if s.control.locked {
      assert forall u :: u in s.tasks && s.tasks[u].Attends(s.control.committed) ==>
        u in after.tasks && after.tasks[u] == s.tasks[u];
    } else {
      assert after.tasks[t] == Watching(s.tasks[t].generation);
      assert forall u :: u != t && u in s.tasks ==> after.tasks[u] == s.tasks[u];
      assert forall u :: u != t && u in after.tasks ==> after.tasks[u] == s.tasks[u];
    }
  }

  ghost predicate AllTimely(s: System, steps: seq<Step>) {
    steps != [] ==>
      AllTimely(s, steps[..|steps| - 1]) && Timely(Run(s, steps[..|steps| - 1]), steps[|steps| - 1])
  }

  lemma {:induction false} LockedSessionsAreAttended(s: System, steps: seq<Step>)
    requires Invariant(s) && Attended(s) && AllTimely(s, steps)
    ensures Attended(Run(s, steps))
    decreases |steps|
  {
    if steps != [] {
      LockedSessionsAreAttended(s, steps[..|steps| - 1]);
      RunKeeps(s, steps[..|steps| - 1]);
      AttendedExactlyWhen(Run(s, steps[..|steps| - 1]), steps[|steps| - 1]);
    }
  }

  // ---- the late lock and the late announcement, step by step ----

  /** The account can be made the active one with this client. */
  predicate CanStart(store: Store, account: AccountId, client: ClientId) {
    store.memory.Some? && store.memory.value.Usable(account) && client in store.sdk
  }

  lemma PreparationKeepsStarts(store: Store, account: AccountId, client: ClientId, other: AccountId, another: ClientId)
    requires CanStart(store, account, client) && CanStart(store, other, another)
    ensures var outcome := store.PrepareClient(client, account, {}, true);
      outcome.ok && CanStart(outcome.after, other, another)
  {
  }

  lemma Then(store: Store, before: seq<Step>, step: Step) returns (steps: seq<Step>)
    ensures steps == before + [step] && Run(Initial(store), steps) == Do(Run(Initial(store), before), step)
  {
    steps := before + [step];
    assert steps[..|steps| - 1] == before;
  }

  /** The start up to where the old session is gone. */
  lemma Replaced(s: System, t: TaskId, account: AccountId, client: ClientId)
    requires s.activation.None? && s.swap.None? && t !in s.tasks && s.store.PrepareClient(client, account, {}, true).ok
    ensures var g := s.control.attempt + 1;
      Do(Do(Do(Do(s, Claim(t, account)), TakeSwap(t)), Prepare(t, client, {}, true)), Take(t)) ==
        System(s.control.(attempt := g, session := None), Some(t), Some(t), s.tasks[t := Emptied(account, g)],
               s.installs, s.store.PrepareClient(client, account, {}, true).after)
  {
    hide AccountStore.Core.PrepareClient, AccountRuns.Do;
    var g := s.control.attempt + 1;
    var checked := Do(Do(s, Claim(t, account)), TakeSwap(t));
    assert checked.tasks == s.tasks[t := Checked(account, g)];
    var prepared := Do(checked, Prepare(t, client, {}, true));
    assert prepared.tasks == s.tasks[t := Prepared(account, g)];
    assert Do(prepared, Take(t)).tasks == s.tasks[t := Emptied(account, g)];
  }

  lemma {:induction false} ReplaceRuns(store: Store, before: seq<Step>, t: TaskId, account: AccountId, client: ClientId)
    returns (steps: seq<Step>)
    requires var s := Run(Initial(store), before);
      s.activation.None? && s.swap.None? && t !in s.tasks && CanStart(s.store, account, client)
    ensures var s, after := Run(Initial(store), before), Run(Initial(store), steps);
      var g := s.control.attempt + 1;
      && after.tasks == s.tasks[t := Emptied(account, g)] && after.activation == Some(t) && after.swap == Some(t)
      && after.control == s.control.(attempt := g, session := None) && after.installs == s.installs
      && after.store == s.store.PrepareClient(client, account, {}, true).after
  {
    PreparationKeepsStarts(Run(Initial(store), before).store, account, client, account, client);
    hide AccountStore.Core.PrepareClient, AccountRuns.Do, Do, CanStart;
    Replaced(Run(Initial(store), before), t, account, client);
    steps := Then(store, before, Claim(t, account));
    steps := Then(store, steps, TakeSwap(t));
    steps := Then(store, steps, Prepare(t, client, {}, true));
    steps := Then(store, steps, Take(t));
  }

  /** The rest of it, up to the cleared flag and from there. */
  lemma Recommitted(s: System, t: TaskId, account: AccountId, g: nat)
    requires t in s.tasks && s.tasks[t] == Emptied(account, g)
    ensures Do(Do(s, Commit(t)), ClearFlag(t)) ==
      s.(control := s.control.Commit(g).Unlock(account, g), tasks := s.tasks[t := Unlocked(account, g)])
  {
    var committed := Do(s, Commit(t));
    assert committed.tasks == s.tasks[t := Committed(account, g)];
    assert Do(committed, ClearFlag(t)).tasks == s.tasks[t := Unlocked(account, g)];
  }

  lemma InstalledNext(s: System, t: TaskId, account: AccountId, g: nat)
    requires t in s.tasks && s.tasks[t] == Unlocked(account, g) && s.activation == Some(t) && s.swap == Some(t)
    ensures Do(Do(s, Install(t)), Complete(t)) ==
      System(s.control.Install(account, g), None, None, s.tasks - {t}, s.installs[g := account], s.store)
  {
    var installed := Do(s, Install(t));
    assert installed.tasks == s.tasks[t := Installed(account, g)];
    assert Do(installed, Complete(t)).tasks == s.tasks - {t};
  }

  lemma {:induction false} StartRuns(store: Store, before: seq<Step>, t: TaskId, account: AccountId, client: ClientId)
    returns (steps: seq<Step>)
    requires var s := Run(Initial(store), before);
      s.activation.None? && s.swap.None? && t !in s.tasks && CanStart(s.store, account, client)
    ensures var s, after := Run(Initial(store), before), Run(Initial(store), steps);
      && after.tasks == s.tasks && after.activation.None? && after.swap.None? && !after.control.locked
      && after.control.attempt == s.control.attempt + 1
      && after.control.committed == after.control.attempt
      && after.control.session == Some(Session(account, after.control.attempt))
      && after.installs == s.installs[after.control.attempt := account]
      && after.store == s.store.PrepareClient(client, account, {}, true).after
  {
    hide AccountStore.Core.PrepareClient, AccountRuns.Do, Do;
    steps := ReplaceRuns(store, before, t, account, client);
    var g := Run(Initial(store), before).control.attempt + 1;
    Recommitted(Run(Initial(store), steps), t, account, g);
    steps := Then(store, steps, Commit(t));
    steps := Then(store, steps, ClearFlag(t));
    InstalledNext(Run(Initial(store), steps), t, account, g);
    steps := Then(store, steps, Install(t));
    steps := Then(store, steps, Complete(t));
    assert Run(Initial(store), steps).tasks == Run(Initial(store), before).tasks;
  }

  lemma LockedBeforeSwitch(store: Store, t: TaskId, late: TaskId, account: AccountId, client: ClientId,
                           other: AccountId, another: ClientId) returns (steps: seq<Step>)
    requires t != late && CanStart(store, account, client) && CanStart(store, other, another)
    ensures var s := Run(Initial(store), steps);
      && s.tasks == map[late := Locking(2)] && s.control.attempt == 3 && s.control.committed == 3 && !s.control.locked
      && s.control.session == Some(Session(other, 3)) && s.activation.None? && s.swap.None? && 3 in s.installs
  {
    PreparationKeepsStarts(store, account, client, other, another);
    hide AccountStore.Core.PrepareClient, AccountRuns.Do;
    steps := StartRuns(store, [], t, account, client);
    steps := Then(store, steps, Lock(late, 2));
    assert Run(Initial(store), steps).tasks == map[late := Locking(2)];
    steps := StartRuns(store, steps, t, other, another);
  }

  /** A lock that read its generation before a switch and sets the flag after it leaves the new
      session locked with nothing left to unlock it, and a later lock finds the flag taken. */
  lemma LateLockSticks(store: Store, t: TaskId, late: TaskId, account: AccountId, client: ClientId,
                       other: AccountId, another: ClientId) returns (steps: seq<Step>)
    requires t != late && CanStart(store, account, client) && CanStart(store, other, another)
    ensures var s := Run(Initial(store), steps);
      && s.control.Live() && s.control.locked && s.tasks == map[]
      && Do(Do(s, Lock(late, s.control.committed)), Swap(late)) == s
  {
    hide AccountStore.Core.PrepareClient, AccountRuns.Do;
    steps := LockedBeforeSwitch(store, t, late, account, client, other, another);
    steps := Then(store, steps, Swap(late));
    assert Run(Initial(store), steps).tasks == map[late := Watching(2)];
    steps := Then(store, steps, Look(late));
    var s := Run(Initial(store), steps);
    assert s.tasks == map[];
    assert Do(s, Lock(late, s.control.committed)).tasks == map[late := Locking(3)];
    assert Do(Do(s, Lock(late, s.control.committed)), Swap(late)).tasks == map[];
  }

  lemma LockedRuns(store: Store, r: TaskId, t: TaskId, account: AccountId, client: ClientId)
    returns (steps: seq<Step>)
    requires r != t && CanStart(store, account, client)
    ensures var s := Run(Initial(store), steps);
      && s.tasks == map[t := Watching(2)] && s.control.committed == 2 && 2 in s.installs
      && s.control.session == Some(Session(account, 2)) && s.activation.None? && s.swap.None?
  {
    hide AccountStore.Core.PrepareClient, AccountRuns.Do;
    steps := StartRuns(store, [], r, account, client);
    steps := Then(store, steps, Lock(t, 2));
    steps := Then(store, steps, Swap(t));
    assert Run(Initial(store), steps).tasks == map[t := Watching(2)];
  }

  lemma CheckedBeforeRejection(store: Store, r: TaskId, t: TaskId, account: AccountId, client: ClientId)
    returns (steps: seq<Step>)
    requires r != t && CanStart(store, account, client)
    ensures var s := Run(Initial(store), steps);
      && s.tasks == map[t := Announcing(account, 2)] && s.control.committed == 2 && 2 in s.installs
      && s.activation.None? && s.swap.None?
  {
    hide AccountStore.Core.PrepareClient, AccountRuns.Do;
    steps := LockedRuns(store, r, t, account, client);
    steps := Then(store, steps, Look(t));
    assert Run(Initial(store), steps).tasks == map[t := Looked(account, 2)];
    steps := Then(store, steps, Check(t));
    assert Run(Initial(store), steps).tasks == map[t := Announcing(account, 2)];
  }

  /** A watcher that found its generation current announces the lock after that generation has ended. */
  lemma LateAnnouncementFollowsTheEnd(store: Store, r: TaskId, t: TaskId, account: AccountId, client: ClientId)
    returns (steps: seq<Step>)
    requires r != t && CanStart(store, account, client)
    ensures !NoneFollowsItsEnd(Run(Initial(store), steps).control.emitted)
  {
    hide AccountStore.Core.PrepareClient, AccountRuns.Do;
    steps := CheckedBeforeRejection(store, r, t, account, client);
    steps := Then(store, steps, Reject(r, 2));
    steps := Then(store, steps, Activate(r));
    steps := Then(store, steps, TakeSwap(r));
    var s := Run(Initial(store), steps);
    assert s.tasks == map[t := Announcing(account, 2), r := Retiring(2)];
    Reachable(store, steps);
    CheckedAnnouncementsCanSpeakLate(s, r, t, 2);
    steps := Then(store, steps, Take(r));
    steps := Then(store, steps, Complete(r));
    steps := Then(store, steps, Announce(t));
  }
}
