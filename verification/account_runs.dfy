/** What the account store keeps over every run of its operations, with a crash anywhere. */
module AccountRuns {
  import opened Options
  import opened AccountStore

  datatype Step =
    | SignIn(client: ClientId, device: DeviceId, access: string, refresh: Option<string>)
    | Rotate(client: ClientId, access: string, refresh: Option<string>)
    | Persist(id: AccountId, client: ClientId, store: StoreId, endpoint: string, reauth: Option<Reauth>,
              unreadable: set<AccountId>, tokensOk: bool, registryOk: bool)
    | Refresh(client: ClientId, unreadable: set<AccountId>, tokensOk: bool, registryOk: bool)
    | Reload(client: ClientId, readable: bool)
    | ReadSaved(client: ClientId, id: AccountId, device: DeviceId)
    | Install(client: ClientId, id: AccountId)
    | Cache(client: ClientId, id: AccountId)
    | Invalidate(id: AccountId)
    | Prepare(client: ClientId, id: AccountId, unreadable: set<AccountId>, registryOk: bool)
    | Mark(id: AccountId, invalidated: bool, unreadable: set<AccountId>, stuck: set<Login>, registryOk: bool)
    | Remove(id: AccountId, unreadable: set<AccountId>, stuck: set<Login>, registryOk: bool)
    | Clear(ok: bool)
    | Migrate(id: AccountId)
    | Load(unreadable: set<AccountId>, stuck: set<Login>, changed: bool, registryOk: bool)

  /** A step that completes, or the process dying before it (`at` past its writes) or after one of
      its writes; what is not on disk is gone then. */
  datatype Event = Complete(step: Step) | Crash(step: Step, at: nat)

  function FreshTokens(c: Core, access: string, refresh: Option<string>): Tokens {
    Tokens(access, refresh, c.issued + 1)
  }

  function Do(c: Core, step: Step): Outcome {
    match step
    case SignIn(client, device, access, refresh) =>
      if client in c.sdk || access == "" then c.Unchanged(false)
      else
        var signedIn := Client(device, FreshTokens(c, access, refresh), None, false);
        Outcome(c.(sdk := c.sdk[client := signedIn], issued := c.issued + 1), [], true)
    case Rotate(client, access, refresh) =>
      if client !in c.sdk || access == "" then c.Unchanged(false)
      else
        var rotated :=
          c.sdk[client].(tokens := FreshTokens(c, access, refresh), rotated := c.sdk[client].callback.Some?);
        Outcome(c.(sdk := c.sdk[client := rotated], issued := c.issued + 1), [], true)
    case Persist(id, client, store, endpoint, reauth, unreadable, tokensOk, registryOk) =>
      if client !in c.sdk then c.Unchanged(false)
      else c.Persist(id, Account(store, c.sdk[client].device, c.sdk[client].tokens, endpoint, false, false), reauth,
          unreadable, tokensOk, registryOk)
    case Refresh(client, unreadable, tokensOk, registryOk) =>
      if client in c.sdk && c.sdk[client].callback.Some? && c.sdk[client].rotated then
        c.PersistRefreshed(client, c.sdk[client].callback.value.account, c.sdk[client].callback.value.writer,
            unreadable, tokensOk, registryOk)
      else c.Unchanged(true)
    case Reload(client, readable) =>
      if client in c.sdk && c.sdk[client].callback.Some? then
        c.ReloadSaved(client, c.sdk[client].callback.value.account, c.sdk[client].callback.value.writer, readable)
      else c.Unchanged(false)
    case ReadSaved(client, id, device) => c.ReadSaved(client, id, device)
    case Install(client, id) =>
      if c.memory.Some? then Outcome(c.InstallWriter(client, id), [], true) else c.Unchanged(false)
    case Cache(client, id) => Outcome(c.CacheClient(client, id), [], true)
    case Invalidate(id) => Outcome(c.Invalidate(id), [], true)
    case Prepare(client, id, unreadable, registryOk) => c.PrepareClient(client, id, unreadable, registryOk)
    case Mark(id, invalidated, unreadable, stuck, registryOk) =>
      c.MarkNeedsReauth(id, invalidated, unreadable, stuck, registryOk)
    case Remove(id, unreadable, stuck, registryOk) => c.RemoveAccount(id, unreadable, stuck, registryOk)
    case Clear(ok) => c.ClearPersisted(ok)
    case Migrate(id) => c.MigrateLogin(id)
    case Load(unreadable, stuck, changed, registryOk) => c.Load(unreadable, stuck, changed, registryOk)
  }

  function Restarted(c: Core, disk: Disk): Core {
    Core(disk, None, map[], map[], 0, map[], c.issued)
  }

  function Next(c: Core, event: Event): Core {
    var outcome := Do(c, event.step);
    match event
    case Complete(_) => outcome.after
    case Crash(_, at) => Restarted(c, if at < |outcome.crashes| then outcome.crashes[at] else c.disk)
  }

  function Run(c: Core, events: seq<Event>): Core {
    if events == [] then c else Next(Run(c, events[..|events| - 1]), events[|events| - 1])
  }

  // ---- usable accounts always keep a token ----

  ghost predicate MemoryBacked(c: Core) {
    c.memory.Some? ==> forall id :: c.memory.value.Usable(id) ==>
      c.disk.HasTokens(id, c.memory.value.accounts[id]) || !c.memory.value.accounts[id].tokens.Blank()
  }

  /** No usable account relies on its file alone. */
  ghost predicate MemoryHoldsTokens(c: Core) {
    c.memory.Some? ==> forall id :: c.memory.value.Usable(id) ==> !c.memory.value.accounts[id].tokens.Blank()
  }

  ghost predicate Coherent(r: Registry) {
    r.ActiveUsable() && forall id :: id in r.accounts && r.accounts[id].deviceInvalidated ==> r.accounts[id].needsReauth
  }

  ghost predicate Recoverable(disk: Disk) {
    disk.FilesHold() && disk.Backed() && (disk.registry.Some? ==> Coherent(disk.registry.value))
  }

  ghost predicate Safe(c: Core) {
    && Recoverable(c.disk)
    && MemoryBacked(c)
    && (c.memory.Some? ==> Coherent(c.memory.value))
    && (forall client :: client in c.sdk ==> !c.sdk[client].tokens.Blank())
  }

  /** Clearing deletes every file while the registry in memory lives on. */
  ghost predicate Guarded(c: Core, event: Event) {
    event == Complete(Clear(true)) ==> MemoryHoldsTokens(c)
  }

  ghost predicate AllGuarded(c: Core, events: seq<Event>) {
    events != [] ==>
      AllGuarded(c, events[..|events| - 1]) && Guarded(Run(c, events[..|events| - 1]), events[|events| - 1])
  }

  /** A registry may be written over files that back its usable accounts together with it. */
  ghost predicate Writable(disk: Disk, r: Registry) {
    && disk.FilesHold() && Coherent(r)
    && forall id :: r.Usable(id) ==> disk.HasTokens(id, r.accounts[id]) || !r.accounts[id].tokens.Blank()
  }

  lemma WriteRecoverable(disk: Disk, r: Registry, unreadable: set<AccountId>)
    requires Writable(disk, r)
    ensures Recoverable(disk.WriteRegistry(r, unreadable))
    ensures forall id :: r.Usable(id) <==> disk.WriteRegistry(r, unreadable).registry.value.Usable(id)
    ensures forall id, account: Account :: disk.WriteRegistry(r, unreadable).HasTokens(id, account) <==>
      disk.HasTokens(id, account)
  {
    var written := disk.WriteRegistry(r, unreadable);
    forall id ensures r.Usable(id) <==> written.registry.value.Usable(id) {}
  }

  lemma SaveTokensKeeps(disk: Disk, id: AccountId, account: Account)
    requires Recoverable(disk) && !account.tokens.Blank()
    ensures Recoverable(disk.SaveTokens(id, account))
    ensures forall other, held: Account :: disk.HasTokens(other, held) ==>
      disk.SaveTokens(id, account).HasTokens(other, held)
  {
  }

  /** Login and refresh: the tokens first, then the registry that drops them. */
  lemma SavedAndWritten(c: Core, id: AccountId, account: Account, updated: Registry, unreadable: set<AccountId>)
    requires Safe(c) && c.memory.Some? && !account.tokens.Blank()
    requires forall other :: updated.Usable(other) && other != id ==>
      c.memory.value.Usable(other) && c.memory.value.accounts[other] == updated.accounts[other]
    requires id in updated.accounts && updated.accounts[id] == account && Coherent(updated)
    ensures var saved := c.disk.SaveTokens(id, account);
      && Recoverable(saved) && Recoverable(saved.WriteRegistry(updated, unreadable))
      && MemoryBacked(c.(disk := saved))
      && MemoryBacked(c.(disk := saved.WriteRegistry(updated, unreadable), memory := Some(updated)))
  {
    var saved := c.disk.SaveTokens(id, account);
    SaveTokensKeeps(c.disk, id, account);
    assert Writable(saved, updated);
    WriteRecoverable(saved, updated, unreadable);
  }

  /** Forgetting an account that is no longer usable takes nothing from the others. */
  lemma ForgetKeeps(disk: Disk, id: AccountId, stuck: set<Login>)
    requires Recoverable(disk) && (disk.registry.Some? ==> !disk.registry.value.Usable(id))
    ensures Recoverable(disk.Forget(id, stuck))
    ensures forall other, account: Account :: other != id && disk.HasTokens(other, account) ==>
      disk.Forget(id, stuck).HasTokens(other, account)
  {
  }

  ghost predicate OutcomeSafe(outcome: Outcome) {
    Safe(outcome.after) && forall i :: 0 <= i < |outcome.crashes| ==> Recoverable(outcome.crashes[i])
  }

  lemma PersistSafe(c: Core, id: AccountId, account: Account, reauth: Option<Reauth>, unreadable: set<AccountId>,
      tokensOk: bool, registryOk: bool)
    requires Safe(c) && !account.tokens.Blank() && !account.needsReauth && !account.deviceInvalidated
    ensures OutcomeSafe(c.Persist(id, account, reauth, unreadable, tokensOk, registryOk))
  {
    if c.memory.Some? && c.Expected(reauth) && tokensOk {
      var kept := if reauth.Some?
        then c.memory.value.(accounts := c.memory.value.accounts - {reauth.value.account}) else c.memory.value;
      SavedAndWritten(c, id, account, kept.Upsert(id, account), unreadable);
    }
  }

  lemma RefreshSafe(c: Core, client: ClientId, id: AccountId, writer: nat, unreadable: set<AccountId>, tokensOk: bool,
      registryOk: bool)
    requires Safe(c)
    ensures OutcomeSafe(c.PersistRefreshed(client, id, writer, unreadable, tokensOk, registryOk))
  {
    if c.memory.Some? && c.memory.value.Usable(id) && client in c.sdk {
      var account := c.memory.value.accounts[id].(device := c.sdk[client].device, tokens := c.sdk[client].tokens);
      SavedAndWritten(c, id, account, c.memory.value.Upsert(id, account), unreadable);
    }
  }

  lemma PrepareSafe(c: Core, client: ClientId, id: AccountId, unreadable: set<AccountId>, registryOk: bool)
    requires Safe(c)
    ensures OutcomeSafe(c.PrepareClient(client, id, unreadable, registryOk))
  {
    if c.memory.Some? && c.memory.value.Usable(id) && client in c.sdk {
      var account := c.memory.value.accounts[id].(device := c.sdk[client].device, tokens := c.sdk[client].tokens);
      var updated := c.memory.value.Upsert(id, account).(active := Some(id));
      assert Writable(c.disk, updated);
      WriteRecoverable(c.disk, updated, unreadable);
    }
  }

  lemma MarkSafe(c: Core, id: AccountId, invalidated: bool, unreadable: set<AccountId>, stuck: set<Login>,
      registryOk: bool)
    requires Safe(c)
    ensures OutcomeSafe(c.MarkNeedsReauth(id, invalidated, unreadable, stuck, registryOk))
  {
    if c.memory.Some? && id in c.memory.value.accounts {
      var updated := c.MarkNeedsReauth(id, invalidated, unreadable, stuck, registryOk).after.memory.value;
      assert Writable(c.disk, updated);
      WriteRecoverable(c.disk, updated, unreadable);
      ForgetKeeps(c.disk.WriteRegistry(updated, unreadable), id, stuck);
    }
  }

  lemma RemoveSafe(c: Core, id: AccountId, unreadable: set<AccountId>, stuck: set<Login>, registryOk: bool)
    requires Safe(c)
    ensures OutcomeSafe(c.RemoveAccount(id, unreadable, stuck, registryOk))
  {
    if c.memory.Some? {
      var updated := c.memory.value.Without(id);
      assert Writable(c.disk, updated);
      WriteRecoverable(c.disk, updated, unreadable);
      ForgetKeeps(c.disk.WriteRegistry(updated, unreadable), id, stuck);
    }
  }

  lemma MigrateSafe(c: Core, id: AccountId)
    requires Safe(c)
    ensures OutcomeSafe(c.MigrateLogin(id))
  {
  }

  /** Loading keeps who is usable, and what backs them. */
  lemma LoadedWritable(c: Core, unreadable: set<AccountId>)
    requires Safe(c) && c.disk.registry.Some?
    ensures Writable(c.disk, c.Loaded(c.disk.registry.value, unreadable))
  {
    var r := c.disk.registry.value;
    var loaded := c.Loaded(r, unreadable);
    forall id ensures loaded.Usable(id) <==> r.Usable(id) {}
    assert Coherent(loaded);
    forall id | loaded.Usable(id)
      ensures c.disk.HasTokens(id, loaded.accounts[id]) || !loaded.accounts[id].tokens.Blank()
    {
      assert c.disk.HasTokens(id, r.accounts[id]) == c.disk.HasTokens(id, loaded.accounts[id]);
    }
  }

  lemma RetainKeeps(disk: Disk, retained: Disk, r: Registry)
    requires Writable(disk, r) && Recoverable(disk) && retained.registry == disk.registry
    requires forall login :: login in retained.files ==>
      login in disk.files && retained.files[login] == disk.files[login]
    requires forall id :: id in r.accounts && Login(id, r.accounts[id].device) in disk.files ==>
      Login(id, r.accounts[id].device) in retained.files
    requires disk.registry.Some? && disk.registry.value.accounts.Keys == r.accounts.Keys
    requires forall id :: id in r.accounts ==> disk.registry.value.accounts[id].device == r.accounts[id].device
    ensures Writable(retained, r) && Recoverable(retained)
  {
    forall id | id in r.accounts ensures retained.HasTokens(id, r.accounts[id]) == disk.HasTokens(id, r.accounts[id]) {}
    forall id | id in r.accounts
      ensures retained.HasTokens(id, disk.registry.value.accounts[id])
          == disk.HasTokens(id, disk.registry.value.accounts[id]) {}
  }

  lemma LoadedShape(c: Core, r: Registry, unreadable: set<AccountId>)
    ensures c.Loaded(r, unreadable).accounts.Keys == r.accounts.Keys
    ensures forall id :: id in r.accounts ==> c.Loaded(r, unreadable).accounts[id].device == r.accounts[id].device
  {
  }

  lemma LoadSafe(c: Core, unreadable: set<AccountId>, stuck: set<Login>, changed: bool, registryOk: bool)
    requires Safe(c)
    ensures OutcomeSafe(c.Load(unreadable, stuck, changed, registryOk))
  {
    hide Disk.HasTokens, Core.Loaded, Disk.WriteRegistry;
    if c.memory.None? && c.disk.registry.Some? {
      var loaded := c.Loaded(c.disk.registry.value, unreadable);
      LoadedShape(c, c.disk.registry.value, unreadable);
      var retained := c.Load(unreadable, stuck, changed, registryOk).crashes[0];
      LoadedWritable(c, unreadable);
      RetainKeeps(c.disk, retained, loaded);
      WriteRecoverable(retained, loaded, unreadable);
    }
  }

  lemma StepSafe(c: Core, step: Step)
    requires Safe(c) && Guarded(c, Complete(step))
    ensures OutcomeSafe(Do(c, step))
  {
    hide Core.Persist, Core.PersistRefreshed, Core.PrepareClient, Core.MarkNeedsReauth, Core.RemoveAccount,
        Core.MigrateLogin, Core.Load;
    match step
    case Persist(id, client, store, endpoint, reauth, unreadable, tokensOk, registryOk) =>
      if client in c.sdk {
        PersistSafe(c, id, Account(store, c.sdk[client].device, c.sdk[client].tokens, endpoint, false, false), reauth,
            unreadable, tokensOk, registryOk);
      }
    case Refresh(client, unreadable, tokensOk, registryOk) =>
      if client in c.sdk && c.sdk[client].callback.Some? && c.sdk[client].rotated {
        RefreshSafe(c, client, c.sdk[client].callback.value.account, c.sdk[client].callback.value.writer, unreadable,
            tokensOk, registryOk);
      }
    case Prepare(client, id, unreadable, registryOk) => PrepareSafe(c, client, id, unreadable, registryOk);
    case Mark(id, invalidated, unreadable, stuck, registryOk) =>
      MarkSafe(c, id, invalidated, unreadable, stuck, registryOk);
    case Remove(id, unreadable, stuck, registryOk) => RemoveSafe(c, id, unreadable, stuck, registryOk);
    case Migrate(id) => MigrateSafe(c, id);
    case Load(unreadable, stuck, changed, registryOk) => LoadSafe(c, unreadable, stuck, changed, registryOk);
    case _ =>
  }

  /** A crash inside a clear is as harmless as any other: the memory that outlives a clear is gone. */
  lemma CrashSafe(c: Core, step: Step, at: nat)
    requires Safe(c)
    ensures Safe(Next(c, Crash(step, at)))
  {
    if step != Clear(true) { StepSafe(c, step); }
  }

  /** In every state of every guarded run, whatever was interrupted, the durable registry's usable
      accounts all keep a token. */
  lemma {:induction false} EveryCrashIsRecoverable(c: Core, events: seq<Event>)
    requires Safe(c) && AllGuarded(c, events)
    ensures Safe(Run(c, events)) && Run(c, events).disk.Backed()
    decreases |events|
  {
    if events != [] {
      var before, event := events[..|events| - 1], events[|events| - 1];
      EveryCrashIsRecoverable(c, before);
      match event
      case Complete(step) => StepSafe(Run(c, before), step);
      case Crash(step, at) => CrashSafe(Run(c, before), step, at);
    }
  }

  /** The guard on clearing is exact: a clear leaves memory backed if and only if no usable account
      relied on its file alone. */
  lemma ClearKeepsBackedExactlyWhen(c: Core)
    ensures MemoryBacked(Do(c, Clear(true)).after) <==> MemoryHoldsTokens(c)
  {
  }

  /** And without it the claim is false: one such account, a clear, and the next registry write that
      succeeds leave a durable account with no token anywhere. */
  lemma UnguardedClearLosesAnAccount(c: Core, id: AccountId, other: AccountId)
    requires c.memory.Some? && c.memory.value.Usable(id) && c.memory.value.accounts[id].tokens.Blank() && other != id
    ensures var cleared := Next(c, Complete(Clear(true)));
      !Next(cleared, Complete(Remove(other, {}, {}, true))).disk.Backed()
  {
    var written := Next(Next(c, Complete(Clear(true))), Complete(Remove(other, {}, {}, true))).disk;
    assert written.registry.value.Usable(id);
    assert !written.HasTokens(id, written.registry.value.accounts[id]);
  }

  // ---- the active account, and memory against disk ----

  ghost predicate AllCoherent(c: Core) {
    && (c.memory.Some? ==> Coherent(c.memory.value))
    && (c.disk.registry.Some? ==> Coherent(c.disk.registry.value))
  }

  /** Whoever is usable in memory is usable on disk. */
  ghost predicate MemoryDurable(c: Core) {
    c.memory.Some? ==>
      forall id :: c.memory.value.Usable(id) ==> c.disk.registry.Some? && c.disk.registry.value.Usable(id)
  }

  lemma WriteMirrors(disk: Disk, r: Registry, unreadable: set<AccountId>)
    ensures var written := disk.WriteRegistry(r, unreadable);
      && written.registry.Some? && written.registry.value.active == r.active
      && (forall id :: written.registry.value.Usable(id) <==> r.Usable(id))
      && (Coherent(written.registry.value) <==> Coherent(r))
  {
    var written := disk.WriteRegistry(r, unreadable).registry.value;
    forall id ensures written.Usable(id) <==> r.Usable(id) {}
    forall id | id in r.accounts
      ensures written.accounts[id].deviceInvalidated == r.accounts[id].deviceInvalidated
      ensures written.accounts[id].needsReauth == r.accounts[id].needsReauth {}
  }

  ghost predicate Durable(c: Core, outcome: Outcome) {
    && AllCoherent(outcome.after)
    && (forall i :: 0 <= i < |outcome.crashes| && outcome.crashes[i].registry.Some? ==>
          Coherent(outcome.crashes[i].registry.value))
    && (MemoryDurable(c) ==> MemoryDurable(outcome.after))
  }

  lemma PersistDurable(c: Core, id: AccountId, account: Account, reauth: Option<Reauth>, unreadable: set<AccountId>,
      tokensOk: bool, registryOk: bool)
    requires AllCoherent(c) && !account.needsReauth && !account.deviceInvalidated
    ensures Durable(c, c.Persist(id, account, reauth, unreadable, tokensOk, registryOk))
  {
    var outcome := c.Persist(id, account, reauth, unreadable, tokensOk, registryOk);
    if outcome.ok {
      WriteMirrors(outcome.crashes[0], outcome.after.memory.value, unreadable);
      assert Coherent(outcome.after.memory.value);
    }
  }

  lemma RefreshDurable(c: Core, client: ClientId, id: AccountId, writer: nat, unreadable: set<AccountId>,
      tokensOk: bool, registryOk: bool)
    requires AllCoherent(c)
    ensures Durable(c, c.PersistRefreshed(client, id, writer, unreadable, tokensOk, registryOk))
  {
    var outcome := c.PersistRefreshed(client, id, writer, unreadable, tokensOk, registryOk);
    if |outcome.crashes| == 2 {
      WriteMirrors(outcome.crashes[0], outcome.after.memory.value, unreadable);
      assert Coherent(outcome.after.memory.value);
    }
  }

  lemma LoadDurable(c: Core, unreadable: set<AccountId>, stuck: set<Login>, changed: bool, registryOk: bool)
    requires AllCoherent(c)
    ensures Durable(c, c.Load(unreadable, stuck, changed, registryOk))
  {
    hide Disk.HasTokens;
    if c.memory.None? && c.disk.registry.Some? {
      var r, outcome := c.disk.registry.value, c.Load(unreadable, stuck, changed, registryOk);
      var loaded := c.Loaded(r, unreadable);
      forall id ensures loaded.Usable(id) <==> r.Usable(id) {}
      assert Coherent(loaded);
      WriteMirrors(outcome.crashes[0], loaded, unreadable);
    }
  }

  lemma PrepareDurable(c: Core, client: ClientId, id: AccountId, unreadable: set<AccountId>, registryOk: bool)
    requires AllCoherent(c)
    ensures Durable(c, c.PrepareClient(client, id, unreadable, registryOk))
  {
    hide Disk.HasTokens, Disk.WriteRegistry;
    var outcome := c.PrepareClient(client, id, unreadable, registryOk);
    if outcome.ok {
      WriteMirrors(c.disk, outcome.after.memory.value, unreadable);
      assert Coherent(outcome.after.memory.value);
    }
  }

  lemma MarkDurable(c: Core, id: AccountId, invalidated: bool, unreadable: set<AccountId>, stuck: set<Login>,
      registryOk: bool)
    requires AllCoherent(c)
    ensures Durable(c, c.MarkNeedsReauth(id, invalidated, unreadable, stuck, registryOk))
  {
    hide Disk.HasTokens, Disk.WriteRegistry;
    if c.memory.Some? {
      var updated := c.MarkNeedsReauth(id, invalidated, unreadable, stuck, registryOk).after.memory.value;
      WriteMirrors(c.disk, updated, unreadable);
      assert Coherent(updated);
      forall other | updated.Usable(other) ensures c.memory.value.Usable(other) {}
    }
  }

  lemma RemoveDurable(c: Core, id: AccountId, unreadable: set<AccountId>, stuck: set<Login>, registryOk: bool)
    requires AllCoherent(c)
    ensures Durable(c, c.RemoveAccount(id, unreadable, stuck, registryOk))
  {
    hide Disk.HasTokens, Disk.WriteRegistry;
    if c.memory.Some? {
      var updated := c.memory.value.Without(id);
      WriteMirrors(c.disk, updated, unreadable);
      assert Coherent(updated);
      forall other | updated.Usable(other) ensures c.memory.value.Usable(other) {}
    }
  }

  lemma StepDurable(c: Core, step: Step)
    requires AllCoherent(c)
    ensures step.Clear? ==>
      AllCoherent(Do(c, step).after) && forall disk :: disk in Do(c, step).crashes ==> disk.registry.None?
    ensures !step.Clear? ==> Durable(c, Do(c, step))
  {
    hide Core.Persist, Core.PersistRefreshed, Core.PrepareClient, Core.MarkNeedsReauth, Core.RemoveAccount, Core.Load;
    match step
    case Persist(id, client, store, endpoint, reauth, unreadable, tokensOk, registryOk) =>
      if client in c.sdk {
        PersistDurable(c, id, Account(store, c.sdk[client].device, c.sdk[client].tokens, endpoint, false, false),
            reauth, unreadable, tokensOk, registryOk);
      }
    case Refresh(client, unreadable, tokensOk, registryOk) =>
      if client in c.sdk && c.sdk[client].callback.Some? && c.sdk[client].rotated {
        RefreshDurable(c, client, c.sdk[client].callback.value.account, c.sdk[client].callback.value.writer,
            unreadable, tokensOk, registryOk);
      }
    case Load(unreadable, stuck, changed, registryOk) => LoadDurable(c, unreadable, stuck, changed, registryOk);
    case Prepare(client, id, unreadable, registryOk) => PrepareDurable(c, client, id, unreadable, registryOk);
    case Mark(id, invalidated, unreadable, stuck, registryOk) =>
      MarkDurable(c, id, invalidated, unreadable, stuck, registryOk);
    case Remove(id, unreadable, stuck, registryOk) => RemoveDurable(c, id, unreadable, stuck, registryOk);
    case _ =>
  }

  /** In every reachable state, failing writes, crashes and clears included, the active account in
      memory is present and does not need reauthentication. */
  lemma {:induction false} ActiveAccountIsUsable(c: Core, events: seq<Event>)
    requires AllCoherent(c)
    ensures AllCoherent(Run(c, events))
    decreases |events|
  {
    if events != [] {
      ActiveAccountIsUsable(c, events[..|events| - 1]);
      StepDurable(Run(c, events[..|events| - 1]), events[|events| - 1].step);
    }
  }

  /** Unless a clear happened, every account usable in memory is usable on disk, even when registry
      writes fail. */
  lemma {:induction false} UsableInMemoryIsUsableOnDisk(c: Core, events: seq<Event>)
    requires AllCoherent(c) && MemoryDurable(c)
    requires forall event :: event in events ==> !event.step.Clear?
    ensures MemoryDurable(Run(c, events))
    decreases |events|
  {
    if events != [] {
      var before := events[..|events| - 1];
      UsableInMemoryIsUsableOnDisk(c, before);
      ActiveAccountIsUsable(c, before);
      assert events[|events| - 1] in events;
      StepDurable(Run(c, before), events[|events| - 1].step);
    }
  }

  /** And a clear that succeeds breaks it exactly when some account is usable in memory. */
  lemma ClearBreaksDurabilityExactlyWhen(c: Core)
    ensures MemoryDurable(Next(c, Complete(Clear(true))))
        <==> !(c.memory.Some? && exists id :: c.memory.value.Usable(id))
  {
  }

  // ---- a retired account stays retired ----

  /** The account is not usable in this process, whatever the disk still says. */
  ghost predicate RetiredHere(c: Core, id: AccountId) {
    c.memory.Some? && !c.memory.value.Usable(id)
  }

  /** The account is usable neither in memory nor on disk. */
  ghost predicate RetiredForGood(c: Core, id: AccountId) {
    && (c.memory.Some? ==> !c.memory.value.Usable(id))
    && (c.disk.registry.Some? ==> !c.disk.registry.value.Usable(id))
  }

  /** No token file of the account is written; some may be removed. */
  ghost predicate FilesOnlyShrink(before: Disk, after: Disk, id: AccountId) {
    forall login :: login in after.files && login.account == id ==>
      login in before.files && after.files[login] == before.files[login]
  }

  predicate LogsIn(step: Step, id: AccountId) {
    step.Persist? && step.id == id
  }

  lemma StepKeepsRetiredHere(c: Core, step: Step, id: AccountId)
    requires !LogsIn(step, id) && RetiredHere(c, id)
    ensures RetiredHere(Do(c, step).after, id)
  {
    hide Disk.HasTokens, Disk.WriteRegistry, Disk.SaveTokens, Disk.Forget;
  }

  lemma SavesWriteNoFile(c: Core, step: Step, id: AccountId)
    requires step.Persist? || step.Refresh?
    requires !LogsIn(step, id) && (RetiredHere(c, id) || RetiredForGood(c, id))
    ensures FilesOnlyShrink(c.disk, Do(c, step).after.disk, id)
    ensures forall disk :: disk in Do(c, step).crashes ==> FilesOnlyShrink(c.disk, disk, id)
  {
    hide Disk.HasTokens, Core.Expected;
  }

  lemma OthersWriteNoFile(c: Core, step: Step, id: AccountId)
    requires step.Prepare? || step.Mark? || step.Remove?
    ensures FilesOnlyShrink(c.disk, Do(c, step).after.disk, id)
    ensures forall disk :: disk in Do(c, step).crashes ==> FilesOnlyShrink(c.disk, disk, id)
  {
    hide Disk.HasTokens, Registry.Usable, Registry.Upsert, Core.Load;
  }

  lemma LoadWritesNoFile(c: Core, unreadable: set<AccountId>, stuck: set<Login>, changed: bool, registryOk: bool,
      id: AccountId)
    ensures FilesOnlyShrink(c.disk, c.Load(unreadable, stuck, changed, registryOk).after.disk, id)
    ensures forall disk :: disk in c.Load(unreadable, stuck, changed, registryOk).crashes ==>
      FilesOnlyShrink(c.disk, disk, id)
  {
    hide Disk.HasTokens, Core.Loaded;
  }

  lemma StepWritesNoFile(c: Core, step: Step, id: AccountId)
    requires !LogsIn(step, id) && (RetiredHere(c, id) || RetiredForGood(c, id))
    ensures FilesOnlyShrink(c.disk, Do(c, step).after.disk, id)
    ensures forall disk :: disk in Do(c, step).crashes ==> FilesOnlyShrink(c.disk, disk, id)
  {
    hide Disk.HasTokens, Core.Persist, Core.PersistRefreshed, Core.PrepareClient, Core.MarkNeedsReauth,
        Core.RemoveAccount, Core.Load;
    if step.Persist? || step.Refresh? {
      SavesWriteNoFile(c, step, id);
    } else if step.Load? {
      LoadWritesNoFile(c, step.unreadable, step.stuck, step.changed, step.registryOk, id);
    } else if step.Prepare? || step.Mark? || step.Remove? {
      OthersWriteNoFile(c, step, id);
    }
  }

  lemma WrittenUsable(r: Registry, unreadable: set<AccountId>, id: AccountId)
    ensures forall disk: Disk :: disk.WriteRegistry(r, unreadable).registry.Some?
    ensures forall disk: Disk :: disk.WriteRegistry(r, unreadable).registry.value.Usable(id) <==> r.Usable(id)
  {
    hide Disk.HasTokens;
  }

  ghost predicate NowhereUsable(outcome: Outcome, id: AccountId) {
    && RetiredForGood(outcome.after, id)
    && forall disk :: disk in outcome.crashes && disk.registry.Some? ==> !disk.registry.value.Usable(id)
  }

  lemma SavesKeepRetired(c: Core, step: Step, id: AccountId)
    requires (step.Persist? || step.Refresh?) && !LogsIn(step, id) && RetiredForGood(c, id)
    ensures NowhereUsable(Do(c, step), id)
  {
    hide Disk.HasTokens, Disk.WriteRegistry, Core.Expected;
    if Do(c, step).after.memory.Some? { WrittenUsable(Do(c, step).after.memory.value, step.unreadable, id); }
  }

  lemma WritesKeepRetired(c: Core, step: Step, id: AccountId)
    requires (step.Prepare? || step.Mark? || step.Remove?) && RetiredForGood(c, id)
    ensures NowhereUsable(Do(c, step), id)
  {
    hide Disk.HasTokens, Disk.WriteRegistry;
    if Do(c, step).after.memory.Some? { WrittenUsable(Do(c, step).after.memory.value, step.unreadable, id); }
  }

  lemma LoadKeepsRetired(c: Core, unreadable: set<AccountId>, stuck: set<Login>, changed: bool, registryOk: bool,
      id: AccountId)
    requires RetiredForGood(c, id)
    ensures NowhereUsable(c.Load(unreadable, stuck, changed, registryOk), id)
  {
    hide Disk.HasTokens, Disk.WriteRegistry;
    if c.disk.registry.Some? { WrittenUsable(c.Loaded(c.disk.registry.value, unreadable), unreadable, id); }
  }

  lemma StepKeepsRetiredForGood(c: Core, step: Step, id: AccountId)
    requires !LogsIn(step, id) && RetiredForGood(c, id)
    ensures NowhereUsable(Do(c, step), id)
  {
    hide Core.Persist, Core.PersistRefreshed, Core.PrepareClient, Core.MarkNeedsReauth, Core.RemoveAccount, Core.Load;
    if step.Persist? || step.Refresh? {
      SavesKeepRetired(c, step, id);
    } else if step.Load? {
      LoadKeepsRetired(c, step.unreadable, step.stuck, step.changed, step.registryOk, id);
    } else if step.Prepare? || step.Mark? || step.Remove? {
      WritesKeepRetired(c, step, id);
    }
  }

  /** Within one process, nothing but a fresh login makes a retired account usable again or writes
      one of its token files: no refresh save of an old client or of one built since. */
  lemma {:induction false} RetiredUntilLogin(c: Core, steps: seq<Step>, id: AccountId)
    requires RetiredHere(c, id) && forall step :: step in steps ==> !LogsIn(step, id)
    ensures RetiredHere(RunSteps(c, steps), id)
    ensures FilesOnlyShrink(c.disk, RunSteps(c, steps).disk, id)
    decreases |steps|
  {
    hide Do;
    if steps != [] {
      var before, step := steps[..|steps| - 1], steps[|steps| - 1];
      assert step in steps;
      RetiredUntilLogin(c, before, id);
      StepKeepsRetiredHere(RunSteps(c, before), step, id);
      StepWritesNoFile(RunSteps(c, before), step, id);
    }
  }

  function RunSteps(c: Core, steps: seq<Step>): Core {
    if steps == [] then c else Do(RunSteps(c, steps[..|steps| - 1]), steps[|steps| - 1]).after
  }

  /** Once the retirement reached the disk it also outlives every crash. */
  lemma {:induction false} RetiredForGoodUntilLogin(c: Core, events: seq<Event>, id: AccountId)
    requires RetiredForGood(c, id) && forall event :: event in events ==> !LogsIn(event.step, id)
    ensures RetiredForGood(Run(c, events), id)
    ensures FilesOnlyShrink(c.disk, Run(c, events).disk, id)
    decreases |events|
  {
    hide Do;
    if events != [] {
      var before, event := events[..|events| - 1], events[|events| - 1];
      assert event in events;
      RetiredForGoodUntilLogin(c, before, id);
      StepKeepsRetiredForGood(Run(c, before), event.step, id);
      StepWritesNoFile(Run(c, before), event.step, id);
    }
  }

  /** Marking and removing retire: at once in memory, and for good when their registry write succeeds. */
  lemma RetirementHolds(c: Core, id: AccountId, step: Step)
    requires c.memory.Some? && (step.Mark? || step.Remove?) && step.id == id
    ensures RetiredHere(Do(c, step).after, id)
    ensures step.registryOk && id in c.memory.value.accounts ==> RetiredForGood(Do(c, step).after, id)
  {
    hide Disk.HasTokens;
  }

  // ---- token files never go back ----

  ghost predicate IssuedBy(r: Registry, issued: nat) {
    forall id :: id in r.accounts ==> r.accounts[id].tokens.issue <= issued
  }

  ghost predicate IssuesBounded(c: Core) {
    && (forall login :: login in c.disk.files ==> c.disk.files[login].issue <= c.issued)
    && (forall client :: client in c.sdk ==> c.sdk[client].tokens.issue <= c.issued)
    && (c.memory.Some? ==> IssuedBy(c.memory.value, c.issued))
    && (c.disk.registry.Some? ==> IssuedBy(c.disk.registry.value, c.issued))
  }

  /** Writer numbers are handed out once, so at most one client is the writer of an account. */
  ghost predicate WritersKnown(c: Core) {
    && (forall client :: client in c.sdk && c.sdk[client].callback.Some? ==>
          c.sdk[client].callback.value.writer < c.nextWriter)
    && (forall a, b :: a in c.sdk && b in c.sdk && a != b && c.sdk[a].callback.Some? && c.sdk[b].callback.Some? ==>
          c.sdk[a].callback.value.writer != c.sdk[b].callback.value.writer)
    && (c.memory.None? ==> c.writers == map[])
  }

  /** Whether a save of this client would be accepted. */
  predicate Writes(c: Core, client: ClientId) {
    && c.memory.Some? && client in c.sdk && c.sdk[client].callback.Some?
      && c.memory.value.Usable(c.sdk[client].callback.value.account)
    && c.sdk[client].rotated && c.sdk[client].callback.value.account in c.writers
    && c.writers[c.sdk[client].callback.value.account] == c.sdk[client].callback.value.writer
  }

  /** A writer that rotated holds tokens at least as new as its login's file. */
  ghost predicate WritersCurrent(c: Core) {
    forall client :: Writes(c, client) ==>
      var login := Login(c.sdk[client].callback.value.account, c.sdk[client].device);
      login in c.disk.files ==> c.disk.files[login].issue <= c.sdk[client].tokens.issue
  }

  ghost predicate Ordered(c: Core) {
    IssuesBounded(c) && WritersKnown(c) && WritersCurrent(c)
  }

  /** Files that remain hold the pair they held or one issued later. */
  ghost predicate NoFileOlder(before: Disk, after: Disk) {
    forall login :: login in before.files && login in after.files ==>
      before.files[login].issue <= after.files[login].issue
  }

  /** A refresh save, wherever it is interrupted, leaves the login's file with its old pair or the
      client's present one, which is no older, and leaves every other file alone. */
  lemma RefreshLeavesOldOrNew(c: Core, client: ClientId, unreadable: set<AccountId>, tokensOk: bool, registryOk: bool)
    requires Ordered(c)
    ensures var outcome := Do(c, Refresh(client, unreadable, tokensOk, registryOk));
      forall disk :: disk in outcome.crashes + [outcome.after.disk] ==>
        && NoFileOlder(c.disk, disk)
        && (forall login :: login in disk.files ==>
              || (login in c.disk.files && disk.files[login] == c.disk.files[login])
              || (client in c.sdk && c.sdk[client].callback.Some? && disk.files[login] == c.sdk[client].tokens
                  && login == Login(c.sdk[client].callback.value.account, c.sdk[client].device)))
        && c.disk.files.Keys <= disk.files.Keys
  {
    hide Disk.HasTokens, IssuesBounded, WritersKnown;
  }

  /** A sign-in stores its login under the account it reauthenticates, or under an id of its own. */
  predicate StoresUnder(c: Core, step: Step) {
    step.Persist? ==>
      || (step.reauth.Some? && step.reauth.value.account == step.id)
      || (c.memory.Some? && step.id !in c.memory.value.accounts && step.id !in c.writers)
  }

  lemma BoundedWrite(disk: Disk, r: Registry, unreadable: set<AccountId>, issued: nat)
    requires IssuedBy(r, issued)
    ensures disk.WriteRegistry(r, unreadable).files == disk.files
    ensures disk.WriteRegistry(r, unreadable).registry.Some?
      && IssuedBy(disk.WriteRegistry(r, unreadable).registry.value, issued)
  {
    hide Disk.HasTokens;
  }

  ghost predicate BoundedDisk(disk: Disk, issued: nat) {
    && (forall login :: login in disk.files ==> disk.files[login].issue <= issued)
    && (disk.registry.Some? ==> IssuedBy(disk.registry.value, issued))
  }

  lemma LoadedBounded(c: Core, unreadable: set<AccountId>)
    requires IssuesBounded(c) && c.disk.registry.Some?
    ensures IssuedBy(c.Loaded(c.disk.registry.value, unreadable), c.issued)
  {
  }

  lemma SavesBounded(c: Core, step: Step)
    requires step.Persist? || step.Refresh?
    requires IssuesBounded(c)
    ensures IssuesBounded(Do(c, step).after)
    ensures forall disk :: disk in Do(c, step).crashes ==> BoundedDisk(disk, c.issued)
  {
    hide Disk.HasTokens, Disk.WriteRegistry, Core.Expected;
    var outcome := Do(c, step);
    if |outcome.crashes| == 2 {
      assert IssuedBy(outcome.after.memory.value, c.issued);
      BoundedWrite(outcome.crashes[0], outcome.after.memory.value, step.unreadable, c.issued);
    }
  }

  lemma WritesBounded(c: Core, step: Step)
    requires step.Prepare? || step.Mark? || step.Remove?
    requires IssuesBounded(c)
    ensures IssuesBounded(Do(c, step).after)
    ensures forall disk :: disk in Do(c, step).crashes ==> BoundedDisk(disk, c.issued)
  {
    if step.Prepare? { PrepareBounded(c, step); } else { RetireBounded(c, step); }
  }

  lemma PrepareBounded(c: Core, step: Step)
    requires step.Prepare?
    requires IssuesBounded(c)
    ensures IssuesBounded(Do(c, step).after)
    ensures forall disk :: disk in Do(c, step).crashes ==> BoundedDisk(disk, c.issued)
  {
    hide Disk.HasTokens, Disk.WriteRegistry, Core.Expected;
    var outcome := Do(c, step);
    if outcome.after.memory.Some? {
      assert IssuedBy(outcome.after.memory.value, c.issued);
      BoundedWrite(c.disk, outcome.after.memory.value, step.unreadable, c.issued);
    }
  }

  lemma RetireBounded(c: Core, step: Step)
    requires step.Mark? || step.Remove?
    requires IssuesBounded(c)
    ensures IssuesBounded(Do(c, step).after)
    ensures forall disk :: disk in Do(c, step).crashes ==> BoundedDisk(disk, c.issued)
  {
    hide Disk.HasTokens, Disk.WriteRegistry, Core.Expected;
    var outcome := Do(c, step);
    if outcome.after.memory.Some? {
      assert IssuedBy(outcome.after.memory.value, c.issued);
      BoundedWrite(c.disk, outcome.after.memory.value, step.unreadable, c.issued);
    }
  }

  lemma LoadBounded(c: Core, step: Step)
    requires step.Load?
    requires IssuesBounded(c)
    ensures IssuesBounded(Do(c, step).after)
    ensures forall disk :: disk in Do(c, step).crashes ==> BoundedDisk(disk, c.issued)
  {
    hide Disk.HasTokens, Disk.WriteRegistry, Core.Expected;
    var outcome := Do(c, step);
    if c.memory.None? && c.disk.registry.Some? {
      var loaded := c.Loaded(c.disk.registry.value, step.unreadable);
      LoadedBounded(c, step.unreadable);
      BoundedWrite(outcome.crashes[0], loaded, step.unreadable, c.issued);
    }
  }

  lemma StepBounded(c: Core, step: Step)
    requires IssuesBounded(c)
    ensures IssuesBounded(Do(c, step).after)
    ensures forall disk :: disk in Do(c, step).crashes ==> BoundedDisk(disk, c.issued)
  {
    hide Core.Persist, Core.PersistRefreshed, Core.PrepareClient, Core.MarkNeedsReauth, Core.RemoveAccount, Core.Load;
    if step.Persist? || step.Refresh? {
      SavesBounded(c, step);
    } else if step.Prepare? || step.Mark? || step.Remove? {
      WritesBounded(c, step);
    } else if step.Load? {
      LoadBounded(c, step);
    }
  }

  lemma SavesWriters(c: Core, step: Step)
    requires step.Persist? || step.Refresh?
    requires WritersKnown(c)
    ensures WritersKnown(Do(c, step).after)
  {
    hide Disk.HasTokens, Disk.WriteRegistry, Disk.SaveTokens, Disk.Forget, Core.Expected, Core.Loaded;
  }

  lemma WritesWriters(c: Core, step: Step)
    requires step.Prepare? || step.Mark? || step.Remove?
    requires WritersKnown(c)
    ensures WritersKnown(Do(c, step).after)
  {
    hide Disk.HasTokens, Disk.WriteRegistry, Disk.SaveTokens, Disk.Forget, Core.Expected, Core.Loaded;
  }

  lemma LoadWriters(c: Core, step: Step)
    requires step.Load?
    requires WritersKnown(c)
    ensures WritersKnown(Do(c, step).after)
  {
    hide Disk.HasTokens, Disk.WriteRegistry, Disk.SaveTokens, Disk.Forget, Core.Expected, Core.Loaded;
  }

  lemma StepWriters(c: Core, step: Step)
    requires WritersKnown(c)
    ensures WritersKnown(Do(c, step).after)
  {
    hide Core.Persist, Core.PersistRefreshed, Core.PrepareClient, Core.MarkNeedsReauth, Core.RemoveAccount, Core.Load;
    if step.Persist? || step.Refresh? {
      SavesWriters(c, step);
    } else if step.Prepare? || step.Mark? || step.Remove? {
      WritesWriters(c, step);
    } else if step.Load? {
      LoadWriters(c, step);
    }
  }

  lemma SavesCurrent(c: Core, step: Step)
    requires step.Persist? || step.Refresh?
    requires Ordered(c) && StoresUnder(c, step)
    ensures WritersCurrent(Do(c, step).after)
    ensures !step.Persist? ==> NoFileOlder(c.disk, Do(c, step).after.disk)
    ensures !step.Persist? ==> forall disk :: disk in Do(c, step).crashes ==> NoFileOlder(c.disk, disk)
  {
    hide Disk.HasTokens, Core.Loaded;
  }

  lemma WritesCurrent(c: Core, step: Step)
    requires step.Prepare? || step.Mark? || step.Remove?
    requires Ordered(c) && StoresUnder(c, step)
    ensures WritersCurrent(Do(c, step).after)
    ensures NoFileOlder(c.disk, Do(c, step).after.disk)
    ensures forall disk :: disk in Do(c, step).crashes ==> NoFileOlder(c.disk, disk)
  {
    if step.Prepare? { PrepareCurrent(c, step); } else { RetireCurrent(c, step); }
  }

  lemma PrepareCurrent(c: Core, step: Step)
    requires step.Prepare?
    requires Ordered(c) && StoresUnder(c, step)
    ensures WritersCurrent(Do(c, step).after)
    ensures NoFileOlder(c.disk, Do(c, step).after.disk)
    ensures forall disk :: disk in Do(c, step).crashes ==> NoFileOlder(c.disk, disk)
  {
    hide Disk.HasTokens, Core.Loaded;
  }

  lemma RetireCurrent(c: Core, step: Step)
    requires step.Mark? || step.Remove?
    requires Ordered(c) && StoresUnder(c, step)
    ensures WritersCurrent(Do(c, step).after)
    ensures NoFileOlder(c.disk, Do(c, step).after.disk)
    ensures forall disk :: disk in Do(c, step).crashes ==> NoFileOlder(c.disk, disk)
  {
    hide Disk.HasTokens, Core.Loaded;
  }

  lemma LoadCurrent(c: Core, step: Step)
    requires step.Load?
    requires Ordered(c) && StoresUnder(c, step)
    ensures WritersCurrent(Do(c, step).after)
    ensures !step.Persist? ==> NoFileOlder(c.disk, Do(c, step).after.disk)
    ensures !step.Persist? ==> forall disk :: disk in Do(c, step).crashes ==> NoFileOlder(c.disk, disk)
  {
    hide Disk.HasTokens, Core.Loaded;
  }

  /** What clients do among themselves touches no file. */
  lemma ClientsCurrent(c: Core, step: Step)
    requires step.SignIn? || step.Rotate? || step.Reload?
    requires Ordered(c)
    ensures WritersCurrent(Do(c, step).after) && Do(c, step).after.disk == c.disk && Do(c, step).crashes == []
  {
    hide Disk.HasTokens, WritersKnown;
  }

  lemma StepCurrent(c: Core, step: Step)
    requires Ordered(c) && StoresUnder(c, step)
    ensures WritersCurrent(Do(c, step).after)
    ensures !step.Persist? ==> NoFileOlder(c.disk, Do(c, step).after.disk)
    ensures !step.Persist? ==> forall disk :: disk in Do(c, step).crashes ==> NoFileOlder(c.disk, disk)
  {
    hide Core.ReloadSaved, Core.Persist, Core.PersistRefreshed, Core.PrepareClient, Core.MarkNeedsReauth,
        Core.RemoveAccount, Core.Load;
    if step.Persist? || step.Refresh? {
      SavesCurrent(c, step);
    } else if step.Prepare? || step.Mark? || step.Remove? {
      WritesCurrent(c, step);
    } else if step.Load? {
      LoadCurrent(c, step);
    } else if step.SignIn? || step.Rotate? || step.Reload? {
      ClientsCurrent(c, step);
    }
  }

  lemma RestartOrdered(c: Core, disk: Disk)
    requires BoundedDisk(disk, c.issued)
    ensures Ordered(Restarted(c, disk))
  {
  }

  lemma NextOrdered(c: Core, event: Event)
    requires Ordered(c) && StoresUnder(c, event.step)
    ensures Ordered(Next(c, event))
    ensures !event.step.Persist? ==> NoFileOlder(c.disk, Next(c, event).disk)
  {
    hide Do, IssuesBounded, WritersKnown, WritersCurrent, NoFileOlder, BoundedDisk;
    StepBounded(c, event.step);
    StepWriters(c, event.step);
    StepCurrent(c, event.step);
    if event.Crash? {
      SameDiskNotOlder(c);
      var disk := Next(c, event).disk;
      assert disk == c.disk || disk in Do(c, event.step).crashes;
      RestartOrdered(c, disk);
    }
  }

  lemma SameDiskNotOlder(c: Core)
    ensures NoFileOlder(c.disk, c.disk)
    ensures IssuesBounded(c) ==> BoundedDisk(c.disk, c.issued)
  {
  }

  ghost predicate AllStoreUnder(c: Core, events: seq<Event>) {
    events != [] ==>
      AllStoreUnder(c, events[..|events| - 1]) && StoresUnder(Run(c, events[..|events| - 1]), events[|events| - 1].step)
  }

  lemma {:induction false} RunOrdered(c: Core, events: seq<Event>)
    requires Ordered(c) && AllStoreUnder(c, events)
    ensures Ordered(Run(c, events))
    decreases |events|
  {
    hide Ordered, Next;
    if events != [] {
      RunOrdered(c, events[..|events| - 1]);
      NextOrdered(Run(c, events[..|events| - 1]), events[|events| - 1]);
    }
  }

  /** The sign-in writes over a pair issued after its own. */
  predicate SignsInBehind(c: Core, event: Event) {
    var step := event.step;
    && step.Persist? && step.client in c.sdk && c.memory.Some? && c.Expected(step.reauth) && step.tokensOk
    && (event.Crash? ==> event.at < |Do(c, step).crashes|)
    && var login := Login(step.id, c.sdk[step.client].device);
    && login in c.disk.files && c.sdk[step.client].tokens.issue < c.disk.files[login].issue
  }

  lemma SignInGoesBackExactlyWhen(c: Core, event: Event)
    requires event.step.Persist?
    ensures NoFileOlder(c.disk, Next(c, event).disk) <==> !SignsInBehind(c, event)
  {
    hide Disk.HasTokens;
    var step, after := event.step, Next(c, event).disk;
    if step.client in c.sdk && Do(c, step).crashes != [] {
      var login := Login(step.id, c.sdk[step.client].device);
      forall disk | disk in Do(c, step).crashes
        ensures disk.files == c.disk.files[login := c.sdk[step.client].tokens] {}
      assert after.files == c.disk.files || after.files == c.disk.files[login := c.sdk[step.client].tokens];
    }
  }

  /** Over every run a step leaves a token file with a pair issued earlier than the one it held exactly
      when it is a sign-in that writes over a later pair. */
  lemma {:induction false} TokenFilesGoBackExactlyWhen(c: Core, events: seq<Event>, event: Event)
    requires Ordered(c) && AllStoreUnder(c, events)
    ensures NoFileOlder(Run(c, events).disk, Next(Run(c, events), event).disk) <==>
      !SignsInBehind(Run(c, events), event)
  {
    hide Next, Ordered, NoFileOlder;
    RunOrdered(c, events);
    if event.step.Persist? { SignInGoesBackExactlyWhen(Run(c, events), event); }
    else { NextOrdered(Run(c, events), event); }
  }

  // ---- where runs begin, and a preparation that fails ----

  function FirstStart(): Core { Core(Disk(None, map[]), None, map[], map[], 0, map[], 0) }

  /** Nothing saved yet: every guarantee of a run holds at its start. */
  lemma FirstStartHolds()
    ensures Safe(FirstStart()) && AllCoherent(FirstStart()) && MemoryDurable(FirstStart()) && Ordered(FirstStart())
  {
  }

  /** A session start that fails here leaves the registry as it was, in memory and on disk. */
  lemma FailedPreparationKeepsTheRegistry(c: Core, client: ClientId, id: AccountId, unreadable: set<AccountId>,
      registryOk: bool)
    ensures var outcome := c.PrepareClient(client, id, unreadable, registryOk);
      && (outcome.ok <==> c.memory.Some? && c.memory.value.Usable(id) && registryOk && (client in c.sdk))
      && (!outcome.ok ==> outcome.after.disk == c.disk && outcome.after.memory == c.memory && outcome.crashes == [])
      && (outcome.ok ==>
            && outcome.after.memory.value.active == Some(id) && outcome.after.memory.value.ActiveUsable()
            && id in outcome.after.clients && id in outcome.after.disk.registry.value.accounts)
  {
  }

  // ---- the unguarded clear, step by step ----

  lemma Then(before: seq<Event>, event: Event) returns (events: seq<Event>)
    ensures events == before + [event] && Run(FirstStart(), events) == Next(Run(FirstStart(), before), event)
  {
    events := before + [event];
    assert events[..|events| - 1] == before;
  }

  /** One login: its tokens are in its file, and only there. */
  ghost predicate SavedAlone(disk: Disk, id: AccountId, store: StoreId, device: DeviceId) {
    && disk.registry.Some? && disk.registry.value.active == None && disk.registry.value.accounts.Keys == {id}
    && var account := disk.registry.value.accounts[id];
    && account.store == store && account.device == device && account.tokens.Blank()
    && !account.needsReauth && !account.deviceInvalidated
    && disk.HasTokens(id, account)
  }

  lemma SignedIn(client: ClientId, id: AccountId, store: StoreId, device: DeviceId) returns (events: seq<Event>)
    ensures SavedAlone(Run(FirstStart(), events).disk, id, store, device)
  {
    var account := Account(store, device, Tokens("token", None, 1), "", false, false);
    events := Then([], Complete(Load({}, {}, false, true)));
    assert Run(FirstStart(), events) == FirstStart().(memory := Some(Registry(None, map[])));
    events := Then(events, Complete(SignIn(client, device, "token", None)));
    var c := Run(FirstStart(), events);
    assert c.sdk == map[client := Client(device, account.tokens, None, false)];
    events := Then(events, Complete(Step.Persist(id, client, store, "", None, {}, true, true)));
    var disk := Run(FirstStart(), events).disk;
    assert disk.files == map[Login(id, device) := account.tokens];
    assert disk.registry.value.accounts.Keys == {id};
    assert disk.registry.value.accounts[id] == account.WithoutTokens();
  }

  /** A restart that cannot read the login's file keeps the account without its tokens. */
  lemma RestartedUnreadable(c: Core, id: AccountId, store: StoreId, device: DeviceId)
    requires SavedAlone(c.disk, id, store, device) && c.memory.None?
    ensures var loaded := Do(c, Load({id}, {}, false, true)).after;
      loaded.memory.Some? && loaded.memory.value.Usable(id) && loaded.memory.value.accounts[id].tokens.Blank()
  {
  }

  /** A login is saved, the core restarts and cannot read the login's file, and a logout without a
      session clears what is saved. Then the next account to be saved is saved beside a usable one that
      has no token anywhere. */
  lemma LogoutWithoutASessionLosesAnAccount(client: ClientId, id: AccountId, store: StoreId, device: DeviceId,
      other: AccountId)
    returns (events: seq<Event>)
    requires other != id
    ensures !Run(FirstStart(), events).disk.Backed()
  {
    events := SignedIn(client, id, store, device);
    var saved := Run(FirstStart(), events);
    events := Then(events, Crash(Clear(false), 0));
    assert Run(FirstStart(), events) == Restarted(saved, saved.disk);
    RestartedUnreadable(Restarted(saved, saved.disk), id, store, device);
    events := Then(events, Complete(Load({id}, {}, false, true)));
    events := Then(events, Complete(Clear(true)));
    var cleared := Run(FirstStart(), events);
    assert cleared.memory.value.Usable(id) && cleared.disk.files == map[];
    events := Then(events, Complete(SignIn(client, device, "token", None)));
    var signed := Run(FirstStart(), events);
    assert signed.memory == cleared.memory && signed.disk == cleared.disk && client in signed.sdk;
    events := Then(events, Complete(Step.Persist(other, client, store, "", None, {}, true, true)));
    var last := Run(FirstStart(), events);
    assert last.disk.registry.value.Usable(id);
    assert !last.disk.HasTokens(id, last.disk.registry.value.accounts[id]);
  }
}
