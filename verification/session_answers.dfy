/** What each operation on the session leads to, and what every end and every unlocking came from. */
module SessionAnswers {
  import opened Options
  import opened SessionControl
  import opened SessionRuns
  import AccountStore
  import AccountRuns

  // ---- what each operation does when the locks are free ----

  ghost predicate Free(s: System) {
    Invariant(s) && s.activation.None? && s.swap.None?
  }

  /** Its generation is committed and installed, so its session is there. */
  lemma CurrentIsInstalled(s: System, g: nat)
    requires Free(s) && g in s.installs && s.control.committed == g
    ensures s.control.session == Some(Session(s.installs[g], g)) && g <= s.control.attempt
    ensures s.control.attempt + 1 !in s.installs
  {
  }

  lemma NewestIsNew(s: System)
    requires Free(s)
    ensures s.control.attempt + 1 !in s.installs
  {
  }

  lemma StageKnown(s: System, t: TaskId)
    requires Free(s) && t in s.tasks
    ensures StageFits(s.control, s.installs, s.tasks[t])
  {
  }

  /** The server accepts the probed token: the session stays, the account is unlocked, and the pages
      are told so last. */
  lemma AcceptedProbeUnlocks(s: System, t: TaskId)
    requires Free(s) && t in s.tasks && s.tasks[t].Probing? && s.tasks[t].generation == s.control.committed
    ensures var account, g := s.tasks[t].account, s.control.committed;
      && s.control.session == Some(Session(account, g))
      && Do(Do(Do(Do(s, Probe(t, Accepted)), Activate(t)), TakeSwap(t)), Complete(t))
        == s.(control := s.control.(locked := false,
                                    emitted := s.control.emitted + [LockChanged(account, g, false)]),
              tasks := s.tasks - {t})
  {
    hide Invariant;
    var account, g := s.tasks[t].account, s.control.committed;
    StageKnown(s, t);
    CurrentIsInstalled(s, g);
    var confirmed := Do(s, Probe(t, Accepted));
    assert confirmed == s.At(t, Confirmed(account, g));
    var active := Do(confirmed, Activate(t));
    assert active == s.(activation := Some(t)).At(t, ConfirmedActive(account, g));
    var unlocking := Do(active, TakeSwap(t));
    assert unlocking == s.(control := s.control.(locked := false), activation := Some(t), swap := Some(t))
                         .At(t, Unlocking(account, g));
    assert Do(unlocking, Complete(t)).tasks == s.tasks - {t};
  }

  /** A rejected session is ended, its generation outdated, and the pages are told so last. */
  lemma RejectedSessionEnds(s: System, t: TaskId)
    requires Free(s) && t in s.tasks && s.tasks[t].Rejected? && s.tasks[t].generation == s.control.committed
    ensures var g, newest := s.control.committed, s.control.attempt + 1;
      && newest !in s.installs && newest > g
      && Do(Do(Do(Do(s, Activate(t)), TakeSwap(t)), Take(t)), Complete(t))
        == s.(control := Control(newest, newest, s.control.locked, None, s.control.emitted + [SessionEnded(g)]),
              tasks := s.tasks - {t})
  {
    hide Invariant;
    var g := s.control.committed;
    StageKnown(s, t);
    CurrentIsInstalled(s, g);
    var active := Do(s, Activate(t));
    assert active == s.(activation := Some(t)).At(t, RejectedActive(g));
    var retiring := Do(active, TakeSwap(t));
    assert retiring == s.(control := s.control.Invalidate(), activation := Some(t), swap := Some(t)).At(t, Retiring(g));
    var retired := Do(retiring, Take(t));
    assert retired == retiring.(control := s.control.Invalidate().Take()).At(t, Retired(g, Some(s.installs[g])));
    assert Do(retired, Complete(t)).tasks == s.tasks - {t};
  }

  /** The server refuses the probed token: the session ends as any rejected one. */
  lemma RefusedProbeEnds(s: System, t: TaskId)
    requires Free(s) && t in s.tasks && s.tasks[t].Probing? && s.tasks[t].generation == s.control.committed
    ensures var g, newest := s.control.committed, s.control.attempt + 1;
      && newest !in s.installs && newest > g
      && Do(Do(Do(Do(Do(s, Probe(t, Refused)), Activate(t)), TakeSwap(t)), Take(t)), Complete(t))
        == s.(control := Control(newest, newest, s.control.locked, None, s.control.emitted + [SessionEnded(g)]),
              tasks := s.tasks - {t})
  {
    hide Invariant, Do;
    StepKeeps(s, Probe(t, Refused));
    RefusedIsRejected(s, t);
    RejectedSessionEnds(s.At(t, Rejected(s.control.committed)), t);
    assert s.tasks[t := Rejected(s.control.committed)] - {t} == s.tasks - {t};
  }

  lemma RefusedIsRejected(s: System, t: TaskId)
    requires t in s.tasks && s.tasks[t].Probing? && s.tasks[t].generation == s.control.committed
    ensures Do(s, Probe(t, Refused)) == s.At(t, Rejected(s.control.committed))
  {
  }

  /** So does the session whose token a request of its own found rejected. */
  lemma RejectionEnds(s: System, t: TaskId)
    requires Free(s) && t !in s.tasks && s.control.committed in s.installs
    ensures var g, newest := s.control.committed, s.control.attempt + 1;
      && newest !in s.installs && newest > g
      && Do(Do(Do(Do(Do(s, Reject(t, g)), Activate(t)), TakeSwap(t)), Take(t)), Complete(t))
        == s.(control := Control(newest, newest, s.control.locked, None, s.control.emitted + [SessionEnded(g)]))
  {
    hide Invariant, Do;
    var g := s.control.committed;
    StepKeeps(s, Reject(t, g));
    assert Do(s, Reject(t, g)) == s.At(t, Rejected(g)) by { RejectBegins(s, t); }
    RejectedSessionEnds(s.At(t, Rejected(g)), t);
    assert s.tasks[t := Rejected(g)] - {t} == s.tasks;
  }

  lemma RejectBegins(s: System, t: TaskId)
    requires t !in s.tasks && s.control.committed in s.installs
    ensures Do(s, Reject(t, s.control.committed)) == s.At(t, Rejected(s.control.committed))
  {
  }

  /** No other answer does anything, and of an outdated generation none does. */
  lemma OtherAnswersDoNothing(s: System, t: TaskId, answer: Answer)
    requires t in s.tasks && s.tasks[t].Probing?
    requires answer.Unclear? || s.tasks[t].generation != s.control.committed
    ensures var after := Do(s, Probe(t, answer));
      && after.control == s.control && after.installs == s.installs && after.store == s.store
      && (t in after.tasks <==> s.tasks[t].generation == s.control.committed)
  {
  }

  lemma LockSwaps(s: System, t: TaskId)
    requires t !in s.tasks && s.control.committed in s.installs && !s.control.locked
    ensures Do(Do(s, Lock(t, s.control.committed)), Swap(t))
         == s.(control := s.control.(locked := true)).At(t, Watching(s.control.committed))
  {
  }

  lemma WatcherAnnounces(s: System, t: TaskId, account: AccountId)
    requires t in s.tasks && s.tasks[t] == Watching(s.control.committed)
    requires s.control.session == Some(Session(account, s.control.committed))
    ensures Do(Do(Do(s, Look(t)), Check(t)), Announce(t))
         == s.(control := s.control.Emit(LockChanged(account, s.control.committed, true)))
             .At(t, Probing(account, s.control.committed))
  {
    var g := s.control.committed;
    assert Do(s, Look(t)) == s.At(t, Looked(account, g));
    assert Do(s.At(t, Looked(account, g)), Check(t)) == s.At(t, Announcing(account, g));
  }

  /** Locking an unlocked account sets the flag, tells the pages and starts to probe. */
  lemma LockAnnounces(s: System, t: TaskId)
    requires Free(s) && t !in s.tasks && s.control.committed in s.installs && !s.control.locked
    ensures var g := s.control.committed; var account := s.installs[g];
      Do(Do(Do(Do(Do(s, Lock(t, g)), Swap(t)), Look(t)), Check(t)), Announce(t))
        == s.(control := s.control.(locked := true,
                                    emitted := s.control.emitted + [LockChanged(account, g, true)]),
              tasks := s.tasks[t := Probing(account, g)])
  {
    var g := s.control.committed;
    CurrentIsInstalled(s, g);
    LockSwaps(s, t);
    hide Invariant, Do;
    WatcherAnnounces(s.(control := s.control.(locked := true)).At(t, Watching(g)), t, s.installs[g]);
  }

  lemma EndInvalidates(s: System, t: TaskId)
    requires t !in s.tasks && s.activation.None? && s.swap.None?
    ensures Do(Do(s, End(t)), TakeSwap(t))
         == s.(control := s.control.Invalidate(), activation := Some(t), swap := Some(t)).At(t, Invalidated)
  {
    assert Do(s, End(t)) == s.(activation := Some(t)).At(t, Ending);
  }

  lemma InvalidatedEnds(s: System, t: TaskId)
    requires t in s.tasks && s.tasks[t].Invalidated? && s.activation == Some(t) && s.swap == Some(t)
    ensures Do(Do(s, Take(t)), Complete(t))
         == s.(control := s.control.Take(), activation := None, swap := None, tasks := s.tasks - {t})
  {
    assert Do(s, Take(t)) == s.(control := s.control.Take()).At(t, Stage.Ended);
    assert s.tasks[t := Stage.Ended] - {t} == s.tasks - {t};
  }

  /** A logout, shutdown or reset takes the session and outdates its generation. */
  lemma EndTakesTheSession(s: System, t: TaskId)
    requires Free(s) && t !in s.tasks
    ensures var newest := s.control.attempt + 1;
      && newest !in s.installs
      && Do(Do(Do(Do(s, End(t)), TakeSwap(t)), Take(t)), Complete(t))
        == s.(control := s.control.(attempt := newest, committed := newest, session := None))
  {
    NewestIsNew(s);
    EndInvalidates(s, t);
    hide Invariant, Do;
    InvalidatedEnds(Do(Do(s, End(t)), TakeSwap(t)), t);
    assert s.tasks[t := Invalidated] - {t} == s.tasks;
  }

  /** A start whose client can be prepared replaces whatever session there is by its own, unlocked. */
  lemma StartInstalls(s: System, t: TaskId, account: AccountId, client: ClientId)
    requires Free(s) && t !in s.tasks && s.store.PrepareClient(client, account, {}, true).ok
    ensures var g := s.control.attempt + 1;
      var taken := Do(Do(Do(Do(s, Claim(t, account)), TakeSwap(t)), Prepare(t, client, {}, true)), Take(t));
      Do(Do(Do(Do(taken, Commit(t)), ClearFlag(t)), Install(t)), Complete(t))
        == s.(control := Control(g, g, false, Some(Session(account, g)),
                                 s.control.emitted + [LockChanged(account, g, false)]),
              installs := s.installs[g := account], store := s.store.PrepareClient(client, account, {}, true).after)
  {
    hide AccountStore.Core.PrepareClient, Do, Invariant;
    var g := s.control.attempt + 1;
    Replaced(s, t, account, client);
    var taken := Do(Do(Do(Do(s, Claim(t, account)), TakeSwap(t)), Prepare(t, client, {}, true)), Take(t));
    Recommitted(taken, t, account, g);
    InstalledNext(Do(Do(taken, Commit(t)), ClearFlag(t)), t, account, g);
    assert s.tasks[t := Emptied(account, g)][t := Unlocked(account, g)] - {t} == s.tasks;
  }

  // ---- what an end came from ----

  /** The token of the committed generation is rejected: a request says so, or the server refuses a probe. */
  predicate Rejects(s: System, step: Step, g: nat) {
    && s.control.committed == g
    && (|| (step.Reject? && step.generation == g)
        || (step.Probe? && step.answer.Refused? && step.task in s.tasks
            && s.tasks[step.task].Probing? && s.tasks[step.task].generation == g))
  }

  ghost predicate WasRejected(s: System, steps: seq<Step>, g: nat) {
    steps != [] &&
      (WasRejected(s, steps[..|steps| - 1], g) || Rejects(Run(s, steps[..|steps| - 1]), steps[|steps| - 1], g))
  }

  predicate Ends(stage: Stage, g: nat) {
    (stage.Rejected? || stage.RejectedActive? || stage.Retiring? || stage.Retired?) && stage.generation == g
  }

  ghost predicate Condemned(s: System, g: nat) {
    SessionRuns.Ended(s.control.emitted, g) || exists t :: t in s.tasks && Ends(s.tasks[t], g)
  }

  lemma StageEndFrom(s: System, step: Step, g: nat)
    requires step.task in Do(s, step).tasks && Ends(Do(s, step).tasks[step.task], g)
    ensures (step.task in s.tasks && Ends(s.tasks[step.task], g)) || Rejects(s, step, g)
  {
    hide AccountStore.Core.PrepareClient, AccountRuns.Do;
  }

  lemma EndNoticeFrom(s: System, step: Step, g: nat)
    requires SessionRuns.Ended(Do(s, step).control.emitted, g)
    ensures SessionRuns.Ended(s.control.emitted, g) || (step.task in s.tasks && Ends(s.tasks[step.task], g))
  {
    hide AccountStore.Core.PrepareClient, AccountRuns.Do;
  }

  lemma CondemnedFrom(s: System, step: Step, g: nat)
    requires Condemned(Do(s, step), g)
    ensures Condemned(s, g) || Rejects(s, step, g)
  {
    hide Do, Rejects, Ends;
    OnlyOwnTask(s, step);
    if SessionRuns.Ended(Do(s, step).control.emitted, g) {
      EndNoticeFrom(s, step, g);
    } else {
      var t :| t in Do(s, step).tasks && Ends(Do(s, step).tasks[t], g);
      if t == step.task { StageEndFrom(s, step, g); } else { assert t in s.tasks && Ends(s.tasks[t], g); }
    }
  }

  /** A generation ends by a rejection only after its own token was rejected while it was committed. */
  lemma {:induction false} EndsComeFromRejections(store: Store, steps: seq<Step>, g: nat)
    requires Condemned(Run(Initial(store), steps), g)
    ensures WasRejected(Initial(store), steps, g)
    decreases |steps|
  {
    if steps != [] {
      hide Do, Condemned, Rejects;
      CondemnedFrom(Run(Initial(store), steps[..|steps| - 1]), steps[|steps| - 1], g);
      if Condemned(Run(Initial(store), steps[..|steps| - 1]), g) {
        EndsComeFromRejections(store, steps[..|steps| - 1], g);
      }
    }
  }

  // ---- what an unlocking came from ----

  /** The server accepts the committed generation's probed token, or a start clears the flag. */
  predicate Clears(s: System, step: Step, g: nat) {
    && step.task in s.tasks
    && (|| (step.Probe? && step.answer.Accepted? && s.tasks[step.task].Probing?
            && s.tasks[step.task].generation == g && s.control.committed == g)
        || (step.ClearFlag? && s.tasks[step.task].Committed? && s.tasks[step.task].generation == g))
  }

  ghost predicate WasCleared(s: System, steps: seq<Step>, g: nat) {
    steps != [] &&
      (WasCleared(s, steps[..|steps| - 1], g) || Clears(Run(s, steps[..|steps| - 1]), steps[|steps| - 1], g))
  }

  predicate Clearer(stage: Stage, g: nat) {
    (stage.Confirmed? || stage.ConfirmedActive? || stage.Unlocking?) && stage.generation == g
  }

  ghost predicate ToldUnlocked(emitted: seq<Notice>, g: nat) {
    exists i :: 0 <= i < |emitted| && emitted[i].LockChanged? && !emitted[i].locked && emitted[i].generation == g
  }

  ghost predicate Cleared(s: System, g: nat) {
    ToldUnlocked(s.control.emitted, g) || exists t :: t in s.tasks && Clearer(s.tasks[t], g)
  }

  lemma StageClearFrom(s: System, step: Step, g: nat)
    requires step.task in Do(s, step).tasks && Clearer(Do(s, step).tasks[step.task], g)
    ensures (step.task in s.tasks && Clearer(s.tasks[step.task], g)) || Clears(s, step, g)
  {
    hide AccountStore.Core.PrepareClient, AccountRuns.Do;
  }

  lemma ClearNoticeFrom(s: System, step: Step, g: nat)
    requires ToldUnlocked(Do(s, step).control.emitted, g)
    ensures
      || ToldUnlocked(s.control.emitted, g)
      || (step.task in s.tasks && Clearer(s.tasks[step.task], g)) || Clears(s, step, g)
  {
    hide AccountStore.Core.PrepareClient, AccountRuns.Do;
  }

  lemma ClearedFrom(s: System, step: Step, g: nat)
    requires Cleared(Do(s, step), g)
    ensures Cleared(s, g) || Clears(s, step, g)
  {
    hide Do, Clears, Clearer;
    OnlyOwnTask(s, step);
    if ToldUnlocked(Do(s, step).control.emitted, g) {
      ClearNoticeFrom(s, step, g);
    } else {
      var t :| t in Do(s, step).tasks && Clearer(Do(s, step).tasks[t], g);
      if t == step.task { StageClearFrom(s, step, g); } else { assert t in s.tasks && Clearer(s.tasks[t], g); }
    }
  }

  /** The pages hear of an unlocked account only after the server accepted a probe of that generation,
      or its start cleared the flag. */
  lemma {:induction false} UnlocksComeFromAcceptance(store: Store, steps: seq<Step>, g: nat)
    requires Cleared(Run(Initial(store), steps), g)
    ensures WasCleared(Initial(store), steps, g)
    decreases |steps|
  {
    if steps != [] {
      hide Do, Cleared, Clears;
      ClearedFrom(Run(Initial(store), steps[..|steps| - 1]), steps[|steps| - 1], g);
      if Cleared(Run(Initial(store), steps[..|steps| - 1]), g) {
        UnlocksComeFromAcceptance(store, steps[..|steps| - 1], g);
      }
    }
  }

  /** The flag of the committed generation goes down only the same way. */
  lemma UnlockedOnlyBy(s: System, step: Step)
    requires s.control.locked && !Do(s, step).control.locked
    ensures step.task in s.tasks && (s.tasks[step.task].Committed? || s.tasks[step.task].ConfirmedActive?)
    ensures s.tasks[step.task].generation == s.control.committed || s.tasks[step.task].Committed?
  {
    hide AccountStore.Core.PrepareClient, AccountRuns.Do;
  }
}
