/** What the account operations achieve when their writes succeed, and that it outlives a crash. */
module AccountEffects {
  import opened Options
  import opened AccountStore
  import opened AccountRuns

  // ---- a refresh is saved ----

  /** The login's file holds the client's present pair. */
  predicate FileHolds(disk: Disk, login: Login, tokens: Tokens) {
    login in disk.files && disk.files[login] == tokens
  }

  /** The account is usable and names this login, in memory and in the saved registry. */
  predicate Registered(c: Core, id: AccountId, device: DeviceId) {
    && c.memory.Some? && c.memory.value.Usable(id) && c.memory.value.accounts[id].device == device
    && c.disk.registry.Some? && c.disk.registry.value.Usable(id)
    && c.disk.registry.value.accounts[id].device == device
  }

  /** The login's file holds the client's pair after its save exactly when it did before, or the client
      is the writer of a usable account and the write succeeds. */
  lemma RefreshSavesExactlyWhen(c: Core, client: ClientId, unreadable: set<AccountId>, tokensOk: bool, registryOk: bool)
    requires client in c.sdk && c.sdk[client].callback.Some?
    ensures var id, now := c.sdk[client].callback.value.account, c.sdk[client];
      var after := Do(c, Refresh(client, unreadable, tokensOk, registryOk)).after;
      FileHolds(after.disk, Login(id, now.device), now.tokens)
      <==> FileHolds(c.disk, Login(id, now.device), now.tokens) || (Writes(c, client) && tokensOk)
  {
    hide Disk.HasTokens;
  }

  /** When both writes succeed, memory holds the pair too, and memory and registry name its login. */
  lemma RefreshRegisters(c: Core, client: ClientId, unreadable: set<AccountId>)
    requires Writes(c, client)
    ensures var id, now := c.sdk[client].callback.value.account, c.sdk[client];
      var outcome := Do(c, Refresh(client, unreadable, true, true));
      && outcome.ok && Registered(outcome.after, id, now.device)
      && outcome.after.memory.value.accounts[id].tokens == now.tokens
      && outcome.after.memory.value.active == c.memory.value.active
      && outcome.after.memory.value.accounts - {id} == c.memory.value.accounts - {id}
  {
    hide Disk.HasTokens;
  }

  /** A login that is registered and in its file is what a core carries that starts over and can read it. */
  lemma RestartCarries(c: Core, id: AccountId, device: DeviceId, tokens: Tokens, unreadable: set<AccountId>,
      stuck: set<Login>, changed: bool, registryOk: bool)
    requires c.disk.registry.Some? && c.disk.registry.value.Usable(id)
    requires c.disk.registry.value.accounts[id].device == device && FileHolds(c.disk, Login(id, device), tokens)
    requires !tokens.Blank() && id !in unreadable
    ensures var outcome := Do(Restarted(c, c.disk), Load(unreadable, stuck, changed, registryOk));
      outcome.ok ==>
        && Registered(outcome.after, id, device) && outcome.after.memory.value.accounts[id].tokens == tokens
        && FileHolds(outcome.after.disk, Login(id, device), tokens)
  {
    hide Disk.HasTokens, Core.Loaded, Disk.WriteRegistry;
    var start := Restarted(c, c.disk);
    LoadedCarries(start, id, device, tokens, unreadable);
    WrittenNames(start.Loaded(c.disk.registry.value, unreadable), unreadable, id);
  }

  /** A load fails only when it has to write the registry back and cannot. */
  lemma LoadSucceedsExactlyWhen(c: Core, unreadable: set<AccountId>, stuck: set<Login>, changed: bool, registryOk: bool)
    requires c.memory.None?
    ensures var outcome := c.Load(unreadable, stuck, changed, registryOk);
      var invalidated := c.disk.registry.Some?
        && exists id :: id in c.disk.registry.value.accounts && c.disk.registry.value.accounts[id].deviceInvalidated;
      && (outcome.ok <==> c.disk.registry.None? || registryOk || !(changed || invalidated))
      && (outcome.ok ==>
            && outcome.after.memory.Some?
            && outcome.after.memory.value.accounts.Keys
               == (if c.disk.registry.Some? then c.disk.registry.value.accounts.Keys else {}))
      && (!outcome.ok ==> outcome.after.memory.None?)
  {
    hide Disk.HasTokens, Disk.WriteRegistry;
    if c.disk.registry.Some? {
      LoadKeepsInvalidated(c, unreadable);
    }
  }

  lemma LoadKeepsInvalidated(c: Core, unreadable: set<AccountId>)
    requires c.disk.registry.Some?
    ensures var r := c.disk.registry.value; var loaded := c.Loaded(r, unreadable);
      && loaded.accounts.Keys == r.accounts.Keys
      && forall id :: id in r.accounts ==> loaded.accounts[id].deviceInvalidated == r.accounts[id].deviceInvalidated
  {
    hide Disk.HasTokens;
  }

  lemma LoadedCarries(c: Core, id: AccountId, device: DeviceId, tokens: Tokens, unreadable: set<AccountId>)
    requires c.disk.registry.Some? && c.disk.registry.value.Usable(id)
    requires c.disk.registry.value.accounts[id].device == device && FileHolds(c.disk, Login(id, device), tokens)
    requires !tokens.Blank() && id !in unreadable
    ensures var loaded := c.Loaded(c.disk.registry.value, unreadable);
      loaded.Usable(id) && loaded.accounts[id].device == device && loaded.accounts[id].tokens == tokens
  {
  }

  lemma WrittenNames(r: Registry, unreadable: set<AccountId>, id: AccountId)
    requires r.Usable(id)
    ensures forall disk: Disk :: disk.WriteRegistry(r, unreadable).registry.Some?
    ensures forall disk: Disk :: disk.WriteRegistry(r, unreadable).files == disk.files
    ensures forall disk: Disk :: disk.WriteRegistry(r, unreadable).registry.value.Usable(id)
    ensures forall disk: Disk ::
      disk.WriteRegistry(r, unreadable).registry.value.accounts[id].device == r.accounts[id].device
  {
    hide Disk.HasTokens;
  }

  /** So a saved refresh outlives a crash: the pair a core loads then is the rotated one. */
  lemma SavedRefreshOutlivesACrash(c: Core, client: ClientId, unreadable: set<AccountId>, unread: set<AccountId>,
      stuck: set<Login>, changed: bool, registryOk: bool)
    requires Writes(c, client) && !c.sdk[client].tokens.Blank()
    requires c.sdk[client].callback.value.account !in unread
    ensures var id, now := c.sdk[client].callback.value.account, c.sdk[client];
      var saved := Do(c, Refresh(client, unreadable, true, true)).after;
      var loaded := Do(Restarted(saved, saved.disk), Load(unread, stuck, changed, registryOk));
      loaded.ok ==>
        Registered(loaded.after, id, now.device) && loaded.after.memory.value.accounts[id].tokens == now.tokens
  {
    hide Do, Restarted, FileHolds;
    var id, now := c.sdk[client].callback.value.account, c.sdk[client];
    var saved := Do(c, Refresh(client, unreadable, true, true)).after;
    RefreshSavesExactlyWhen(c, client, unreadable, true, true);
    RefreshRegisters(c, client, unreadable);
    RestartCarries(saved, id, now.device, now.tokens, unread, stuck, changed, registryOk);
  }

  // ---- a sign-in is saved ----

  /** A sign-in succeeds exactly when it replaces what it expected and both writes do. */
  lemma SignInSavesExactlyWhen(c: Core, id: AccountId, account: Account, reauth: Option<Reauth>,
      unreadable: set<AccountId>, tokensOk: bool, registryOk: bool)
    requires !account.needsReauth
    ensures var outcome := c.Persist(id, account, reauth, unreadable, tokensOk, registryOk);
      && (outcome.ok <==> c.memory.Some? && c.Expected(reauth) && tokensOk && registryOk)
      && (outcome.ok ==>
            && Registered(outcome.after, id, account.device)
            && FileHolds(outcome.after.disk, Login(id, account.device), account.tokens)
            && outcome.after.memory.value.accounts[id] == account
            && id !in outcome.after.writers && id !in outcome.after.clients)
  {
    hide Disk.HasTokens;
  }

  /** And of the other accounts only the one it replaces goes. */
  lemma SignInKeepsOthers(c: Core, id: AccountId, account: Account, reauth: Option<Reauth>,
      unreadable: set<AccountId>, tokensOk: bool, registryOk: bool, other: AccountId)
    requires c.memory.Some? && other != id && (reauth.Some? ==> other != reauth.value.account)
    ensures var after := c.Persist(id, account, reauth, unreadable, tokensOk, registryOk).after;
      && after.memory.Some? && (other in after.memory.value.accounts <==> other in c.memory.value.accounts)
      && (other in c.memory.value.accounts ==> after.memory.value.accounts[other] == c.memory.value.accounts[other])
  {
    hide Disk.HasTokens, Disk.WriteRegistry;
  }

  lemma SavedSignInOutlivesACrash(c: Core, id: AccountId, account: Account, reauth: Option<Reauth>,
      unreadable: set<AccountId>, unread: set<AccountId>, stuck: set<Login>, changed: bool, registryOk: bool)
    requires c.memory.Some? && c.Expected(reauth) && !account.needsReauth && !account.tokens.Blank() && id !in unread
    ensures var saved := c.Persist(id, account, reauth, unreadable, true, true).after;
      var loaded := Do(Restarted(saved, saved.disk), Load(unread, stuck, changed, registryOk));
      loaded.ok ==>
        && Registered(loaded.after, id, account.device)
        && loaded.after.memory.value.accounts[id].tokens == account.tokens
  {
    hide Do, Restarted, FileHolds, Core.Persist;
    var saved := c.Persist(id, account, reauth, unreadable, true, true).after;
    SignInSavesExactlyWhen(c, id, account, reauth, unreadable, true, true);
    RestartCarries(saved, id, account.device, account.tokens, unread, stuck, changed, registryOk);
  }

  // ---- what marking and removing leave ----

  /** Marking keeps the account and says why; it touches no other. */
  lemma MarkingMarks(c: Core, id: AccountId, invalidated: bool, unreadable: set<AccountId>, stuck: set<Login>,
      registryOk: bool)
    requires c.memory.Some? && id in c.memory.value.accounts
    ensures var outcome := c.MarkNeedsReauth(id, invalidated, unreadable, stuck, registryOk);
      var before, after := c.memory.value, outcome.after.memory.value;
      && outcome.ok == registryOk && after.accounts.Keys == before.accounts.Keys
      && after.accounts[id].needsReauth && after.accounts[id].deviceInvalidated == invalidated
      && after.accounts[id].tokens
        == (if invalidated then before.accounts[id].tokens.Discarded() else before.accounts[id].tokens)
      && after.accounts - {id} == before.accounts - {id}
      && after.active == (if before.active == Some(id) then None else before.active)
      && id !in outcome.after.writers && id !in outcome.after.clients
  {
    hide Disk.HasTokens, Disk.WriteRegistry;
  }

  /** Its saved form says so too, and an invalidated device's files are gone. */
  lemma MarkingIsSaved(c: Core, id: AccountId, invalidated: bool, unreadable: set<AccountId>, stuck: set<Login>)
    requires c.memory.Some? && id in c.memory.value.accounts
    ensures var disk := c.MarkNeedsReauth(id, invalidated, unreadable, stuck, true).after.disk;
      && disk.registry.Some? && id in disk.registry.value.accounts
      && disk.registry.value.accounts[id].needsReauth
      && disk.registry.value.accounts[id].deviceInvalidated == invalidated
      && (invalidated ==> forall login :: login in disk.files && login.account == id ==> login in stuck)
      && (!invalidated ==> disk.files == c.disk.files)
  {
    hide Disk.HasTokens;
  }

  /** Removing takes the account out of memory, and out of the saved registry when that is written. */
  lemma RemovingRemoves(c: Core, id: AccountId, unreadable: set<AccountId>, stuck: set<Login>, registryOk: bool)
    requires c.memory.Some?
    ensures var outcome := c.RemoveAccount(id, unreadable, stuck, registryOk);
      var before, after := c.memory.value, outcome.after.memory.value;
      && outcome.ok == registryOk && after.accounts == before.accounts - {id}
      && after.active == (if before.active == Some(id) then None else before.active)
      && id !in outcome.after.writers && id !in outcome.after.clients
      && (registryOk ==>
            && outcome.after.disk.registry.Some?
            && outcome.after.disk.registry.value.accounts.Keys == before.accounts.Keys - {id}
            && (forall login :: login in outcome.after.disk.files && login.account == id ==> login in stuck)
            && (forall login :: login in c.disk.files && login.account != id ==>
                  login in outcome.after.disk.files && outcome.after.disk.files[login] == c.disk.files[login]))
  {
    hide Disk.HasTokens;
  }

  /** Over every run with no new login of the account, its files stay gone, crashes included. */
  lemma {:induction false} RemovedFilesStayGone(c: Core, id: AccountId, unreadable: set<AccountId>, stuck: set<Login>,
      events: seq<Event>)
    requires c.memory.Some? && forall event :: event in events ==> !LogsIn(event.step, id)
    ensures var removed := c.RemoveAccount(id, unreadable, stuck, true).after;
      forall login :: login in Run(removed, events).disk.files && login.account == id ==> login in stuck
  {
    hide Core.RemoveAccount, Run;
    var removed := c.RemoveAccount(id, unreadable, stuck, true).after;
    RemovingRemoves(c, id, unreadable, stuck, true);
    RetiredForGoodUntilLogin(removed, events, id);
  }

  // ---- what clients read ----

  /** A new client holds exactly what its login's file holds, and there is none without it. */
  lemma SavedClientsReadTheirFile(c: Core, client: ClientId, id: AccountId, device: DeviceId)
    requires client !in c.sdk && id !in c.clients
    ensures var outcome := c.ReadSaved(client, id, device);
      && (outcome.ok <==> Login(id, device) in c.disk.files && !c.disk.files[Login(id, device)].Blank())
      && (outcome.ok ==>
            client in outcome.after.sdk && FileHolds(c.disk, Login(id, device), outcome.after.sdk[client].tokens))
  {
  }

  /** A reload gives the account's writer what its file holds, and no one else anything. */
  lemma ReloadsReadTheirFile(c: Core, client: ClientId, readable: bool)
    requires client in c.sdk && c.sdk[client].callback.Some?
    ensures var id, outcome := c.sdk[client].callback.value.account, Do(c, Reload(client, readable));
      var writes := id in c.writers && c.writers[id] == c.sdk[client].callback.value.writer;
      && (outcome.ok ==>
            && writes && c.memory.value.Usable(id)
            && FileHolds(c.disk, Login(id, c.memory.value.accounts[id].device), outcome.after.sdk[client].tokens))
      && ((writes && readable && c.memory.Some? && c.memory.value.Usable(id)
           && c.disk.HasTokens(id, c.memory.value.accounts[id])) ==> outcome.ok)
      && (!outcome.ok ==> outcome.after == c)
  {
  }

  // ---- who writes, and what becomes active ----

  /** A client that got the account's callback last, and has rotated its pair since, is its writer. */
  lemma InstalledWriterWrites(c: Core, client: ClientId, id: AccountId, access: string, refresh: Option<string>)
    requires c.memory.Some? && c.memory.value.Usable(id) && access != ""
    requires client in c.sdk && c.sdk[client].callback.None?
    ensures var installed := Do(c, Install(client, id)).after;
      var rotated := Do(installed, Rotate(client, access, refresh)).after;
      && Writes(rotated, client) && rotated.sdk[client].callback.value.account == id
      && rotated.sdk[client].tokens == Tokens(access, refresh, c.issued + 1)
  {
  }

  /** And whoever wrote for the account before writes no more. */
  lemma {:induction false} OnlyTheNewestWrites(c: Core, client: ClientId, id: AccountId, older: ClientId)
    requires older in c.sdk && older != client && c.sdk[older].callback.Some?
    requires c.sdk[older].callback.value.account == id && c.sdk[older].callback.value.writer < c.nextWriter
    requires c.memory.Some?
    ensures !Writes(Do(c, Install(client, id)).after, older)
  {
  }

  /** Preparing a client succeeds exactly for a usable account whose registry write does; then the
      account is active in memory and on disk under the client's login, and another stays as it was. */
  lemma PreparingActivates(c: Core, client: ClientId, id: AccountId, unreadable: set<AccountId>, registryOk: bool)
    requires client in c.sdk
    ensures var outcome := c.PrepareClient(client, id, unreadable, registryOk);
      && (outcome.ok <==> c.memory.Some? && c.memory.value.Usable(id) && registryOk)
      && (outcome.ok ==>
            && Registered(outcome.after, id, c.sdk[client].device)
            && outcome.after.memory.value.active == Some(id)
            && outcome.after.disk.registry.value.active == Some(id)
            && outcome.after.memory.value.accounts[id].tokens == c.sdk[client].tokens
            && outcome.after.memory.value.accounts - {id} == c.memory.value.accounts - {id}
            && id in outcome.after.clients && (id !in c.clients ==> id in outcome.after.writers))
      && (!outcome.ok ==> outcome.after.memory == c.memory && outcome.after.disk == c.disk)
  {
    hide Disk.HasTokens;
  }

  // ---- what clearing, moving and loading leave ----

  /** Clearing leaves nothing on disk, and nothing for a restart to load. */
  lemma ClearingLeavesNothing(c: Core, unreadable: set<AccountId>, stuck: set<Login>, changed: bool, registryOk: bool)
    ensures var cleared := Do(c, Clear(true)).after;
      var loaded := Do(Restarted(cleared, cleared.disk), Load(unreadable, stuck, changed, registryOk));
      && cleared.disk.registry.None? && cleared.disk.files == map[] && cleared.memory == c.memory
      && loaded.ok && loaded.after.memory == Some(Registry(None, map[]))
  {
  }

  /** Moving puts an embedded pair into its login's file, and nothing else changes. */
  lemma MovingFillsTheFile(c: Core, id: AccountId)
    ensures var moved := Do(c, Migrate(id)).after;
      if c.Embedded(id) then
        var account := c.disk.registry.value.accounts[id];
        && FileHolds(moved.disk, Login(id, account.device), account.tokens)
        && moved.disk.files - {Login(id, account.device)} == c.disk.files && moved.disk.registry == c.disk.registry
      else moved == c
  {
  }

  /** A load keeps the file of every login the registry names, and of the others only what cannot go. */
  lemma LoadKeepsKnownFilesExactly(c: Core, unreadable: set<AccountId>, stuck: set<Login>, changed: bool,
      registryOk: bool, login: Login)
    requires c.memory.None? && c.disk.registry.Some? && login in c.disk.files
    ensures var after := c.Load(unreadable, stuck, changed, registryOk).after; var r := c.disk.registry.value;
      && (login in after.disk.files <==>
            (login.account in r.accounts && r.accounts[login.account].device == login.device) || login in stuck)
      && (login in after.disk.files ==> after.disk.files[login] == c.disk.files[login])
  {
    hide Disk.HasTokens;
  }
}
