/** The account registry, the per-login token files and the clients that write them: every operation
    that holds the session store lock, with the disk as each crash between its writes would leave it. */
module AccountStore {
  import opened Options

  type AccountId(==, !new)
  type DeviceId(==, !new)
  type StoreId(==, !new)
  type ClientId(==, !new)

  /** `issue` is history: the order in which the homeserver issued the pairs. */
  datatype Tokens = Tokens(access: string, refresh: Option<string>, issue: nat) {
    predicate Blank() { access == "" }

    function Discarded(): Tokens { Tokens("", None, issue) }
  }

  datatype Account = Account(
    store: StoreId, device: DeviceId, tokens: Tokens, endpoint: string, needsReauth: bool, deviceInvalidated: bool)
  {
    function WithoutTokens(): Account { this.(tokens := tokens.Discarded()) }
  }

  datatype Registry = Registry(active: Option<AccountId>, accounts: map<AccountId, Account>) {
    predicate Usable(id: AccountId) {
      id in accounts && !accounts[id].needsReauth
    }

    /** The active account is present and does not need reauthentication. */
    predicate ActiveUsable() {
      active.Some? ==> Usable(active.value)
    }

    function Upsert(id: AccountId, account: Account): Registry {
      this.(accounts := accounts[id := account])
    }

    function Without(id: AccountId): Registry {
      Registry(if active == Some(id) then None else active, accounts - {id})
    }
  }

  datatype Login = Login(account: AccountId, device: DeviceId)

  datatype Disk = Disk(registry: Option<Registry>, files: map<Login, Tokens>) {
    predicate HasTokens(id: AccountId, account: Account) {
      var login := Login(id, account.device);
      login in files && !files[login].Blank()
    }

    /** Tokens leave the registry only once their own file was read back. */
    function WriteRegistry(r: Registry, unreadable: set<AccountId>): Disk {
      this.(registry := Some(r.(accounts := map id | id in r.accounts ::
        if id !in unreadable && HasTokens(id, r.accounts[id]) then r.accounts[id].WithoutTokens() else r.accounts[id])))
    }

    function SaveTokens(id: AccountId, account: Account): Disk {
      this.(files := files[Login(id, account.device) := account.tokens])
    }

    /** Removal of an account's files; those in `stuck` could not be removed. */
    function Forget(id: AccountId, stuck: set<Login>): Disk {
      this.(files := map login | login in files && (login.account != id || login in stuck) :: files[login])
    }

    /** Every usable account keeps a token, in its login's file or in the registry itself. */
    ghost predicate Backed() {
      registry.Some? ==> forall id :: registry.value.Usable(id) ==>
        HasTokens(id, registry.value.accounts[id]) || !registry.value.accounts[id].tokens.Blank()
    }

    ghost predicate FilesHold() {
      forall login :: login in files ==> !files[login].Blank()
    }
  }

  /** A client of the SDK: the login it holds now, the account and writer number its save callback
      carries, and whether it rotated its tokens since it got that callback. */
  datatype Client = Client(device: DeviceId, tokens: Tokens, callback: Option<Callback>, rotated: bool)

  datatype Callback = Callback(account: AccountId, writer: nat)

  datatype Reauth = Reauth(account: AccountId, deviceInvalidated: bool)

  /** The core after an operation, every durable state a crash inside it could leave, and its result. */
  datatype Outcome = Outcome(after: Core, crashes: seq<Disk>, ok: bool)

  datatype Core = Core(
    disk: Disk,
    memory: Option<Registry>,
    clients: map<AccountId, ClientId>,
    writers: map<AccountId, nat>,
    nextWriter: nat,
    sdk: map<ClientId, Client>,
    issued: nat)
  {
    function Unchanged(ok: bool): Outcome { Outcome(this, [], ok) }

    function Invalidate(id: AccountId): Core {
      this.(writers := writers - {id}, clients := clients - {id})
    }

    /** A client takes only the first callback it is given. */
    function InstallWriter(client: ClientId, id: AccountId): Core {
      var installed := this.(writers := writers[id := nextWriter], nextWriter := nextWriter + 1);
      if client in sdk && sdk[client].callback.None?
      then installed.(sdk := sdk[client := sdk[client].(callback := Some(Callback(id, nextWriter)), rotated := false)])
      else installed
    }

    /** Whether a sign-in may still replace the login it set out to replace. */
    predicate Expected(reauth: Option<Reauth>) {
      reauth.Some? ==>
        && memory.Some? && reauth.value.account in memory.value.accounts
        && memory.value.accounts[reauth.value.account].needsReauth
        && memory.value.accounts[reauth.value.account].deviceInvalidated == reauth.value.deviceInvalidated
    }

    function Persist(id: AccountId, account: Account, reauth: Option<Reauth>, unreadable: set<AccountId>,
        tokensOk: bool, registryOk: bool): Outcome {
      if memory.None? || !Expected(reauth) || !tokensOk then Unchanged(false)
      else
        var kept := if reauth.Some?
          then memory.value.(accounts := memory.value.accounts - {reauth.value.account}) else memory.value;
        var updated := kept.Upsert(id, account);
        var saved := disk.SaveTokens(id, account);
        if !registryOk then Outcome(this.(disk := saved), [saved], false)
        else
          var written := saved.WriteRegistry(updated, unreadable);
          Outcome(this.(disk := written, memory := Some(updated)).Invalidate(id), [saved, written], true)
    }

    /** A save callback runs: only the account's current writer saves, and only a usable account. */
    function PersistRefreshed(client: ClientId, id: AccountId, writer: nat, unreadable: set<AccountId>, tokensOk: bool,
        registryOk: bool): Outcome {
      if !(id in writers && writers[id] == writer) then Unchanged(true)
      else if memory.None? || !memory.value.Usable(id) || client !in sdk then Unchanged(true)
      else if !tokensOk then Unchanged(false)
      else
        var account := memory.value.accounts[id].(device := sdk[client].device, tokens := sdk[client].tokens);
        var updated := memory.value.Upsert(id, account);
        var saved := disk.SaveTokens(id, account);
        if !registryOk then Outcome(this.(disk := saved), [saved], false)
        else
          var written := saved.WriteRegistry(updated, unreadable);
          Outcome(this.(disk := written, memory := Some(updated)), [saved, written], true)
    }

    /** A client asks for the tokens in its login's file: only the account's current writer gets them. */
    function ReloadSaved(client: ClientId, id: AccountId, writer: nat, readable: bool): Outcome {
      if !(id in writers && writers[id] == writer) || memory.None? || !memory.value.Usable(id) then Unchanged(false)
      else
        var login := Login(id, memory.value.accounts[id].device);
        if !readable || login !in disk.files || disk.files[login].Blank() || client !in sdk then Unchanged(false)
        else
          var reloaded := sdk[client].(tokens := disk.files[login], rotated := false);
          Outcome(this.(sdk := sdk[client := reloaded]), [], true)
    }

    /** The part of building a saved client that reads the login's file. */
    function ReadSaved(client: ClientId, id: AccountId, device: DeviceId): Outcome {
      if id in clients || client in sdk || Login(id, device) !in disk.files || disk.files[Login(id, device)].Blank()
      then Unchanged(false)
      else Outcome(this.(sdk := sdk[client := Client(device, disk.files[Login(id, device)], None, false)]), [], true)
    }

    function CacheClient(client: ClientId, id: AccountId): Core {
      this.(clients := clients[id := client])
    }

    function PrepareClient(client: ClientId, id: AccountId, unreadable: set<AccountId>, registryOk: bool): Outcome {
      if memory.None? || !memory.value.Usable(id) then Unchanged(false)
      else
        var prepared := if id in clients then this else InstallWriter(client, id).CacheClient(client, id);
        if client !in sdk || !registryOk then Outcome(prepared, [], false)
        else
          var account := memory.value.accounts[id].(device := sdk[client].device, tokens := sdk[client].tokens);
          var updated := memory.value.Upsert(id, account).(active := Some(id));
          var written := disk.WriteRegistry(updated, unreadable);
          Outcome(prepared.(disk := written, memory := Some(updated)), [written], true)
    }

    function MarkNeedsReauth(id: AccountId, invalidated: bool, unreadable: set<AccountId>, stuck: set<Login>,
        registryOk: bool): Outcome {
      if memory.None? then Unchanged(false)
      else if id !in memory.value.accounts then Unchanged(true)
      else
        var account := memory.value.accounts[id].(needsReauth := true, deviceInvalidated := invalidated);
        var marked := memory.value.Upsert(id, if invalidated then account.WithoutTokens() else account);
        var updated := marked.(active := if marked.active == Some(id) then None else marked.active);
        var retired := this.(memory := Some(updated)).Invalidate(id);
        if !registryOk then Outcome(retired, [], false)
        else
          var written := disk.WriteRegistry(updated, unreadable);
          if !invalidated then Outcome(retired.(disk := written), [written], true)
          else Outcome(retired.(disk := written.Forget(id, stuck)), [written, written.Forget(id, stuck)], true)
    }

    function RemoveAccount(id: AccountId, unreadable: set<AccountId>, stuck: set<Login>, registryOk: bool): Outcome {
      if memory.None? then Unchanged(false)
      else
        var removed := this.(memory := Some(memory.value.Without(id))).Invalidate(id);
        if !registryOk then Outcome(removed, [], false)
        else
          var written := disk.WriteRegistry(memory.value.Without(id), unreadable);
          Outcome(removed.(disk := written.Forget(id, stuck)), [written, written.Forget(id, stuck)], true)
    }

    /** Clears the disk but not the registry in memory. */
    function ClearPersisted(ok: bool): Outcome {
      if !ok then Unchanged(false)
      else
        var cleared := disk.(registry := None);
        Outcome(this.(disk := cleared.(files := map[])), [cleared, cleared.(files := map[])], true)
    }

    /** Whether loading moves an account's embedded tokens into a file of their own. */
    predicate Embedded(id: AccountId) {
      && memory.None? && disk.registry.Some? && id in disk.registry.value.accounts
      && var account := disk.registry.value.accounts[id];
      && !account.needsReauth && !account.deviceInvalidated && !account.tokens.Blank()
      && Login(id, account.device) !in disk.files
    }

    function MigrateLogin(id: AccountId): Outcome {
      if !Embedded(id) then Unchanged(true)
      else
        var saved := disk.SaveTokens(id, disk.registry.value.accounts[id]);
        Outcome(this.(disk := saved), [saved], true)
    }

    /** The first part of a load, over the accounts in the order it takes them. */
    function MigrateAll(order: seq<AccountId>): Outcome {
      if order == [] then Unchanged(true)
      else
        var earlier := MigrateAll(order[..|order| - 1]);
        var last := earlier.after.MigrateLogin(order[|order| - 1]);
        Outcome(last.after, earlier.crashes + last.crashes, true)
    }

    /** The registry as it is held in memory: usable accounts carry what their files hold. */
    function Loaded(r: Registry, unreadable: set<AccountId>): Registry {
      r.(accounts := map id | id in r.accounts ::
        var account := if r.accounts[id].deviceInvalidated then r.accounts[id].WithoutTokens() else r.accounts[id];
        if !account.needsReauth && id !in unreadable && disk.HasTokens(id, account)
        then account.(tokens := disk.files[Login(id, account.device)]) else account)
    }

    /** The rest of the load: files of no known login go, and a changed registry is written back. */
    function Load(unreadable: set<AccountId>, stuck: set<Login>, changed: bool, registryOk: bool): Outcome {
      if memory.Some? then Unchanged(true)
      else if disk.registry.None? then Outcome(this.(memory := Some(Registry(None, map[]))), [], true)
      else
        var loaded := Loaded(disk.registry.value, unreadable);
        var retained := disk.(files := map login | login in disk.files &&
          ((login.account in loaded.accounts && loaded.accounts[login.account].device == login.device)
            || login in stuck)
          :: disk.files[login]);
        if !(changed || exists id :: id in loaded.accounts && loaded.accounts[id].deviceInvalidated) then
          Outcome(this.(disk := retained, memory := Some(loaded)), [retained], true)
        else if !registryOk then Outcome(this.(disk := retained), [retained], false)
        else
          var written := retained.WriteRegistry(loaded, unreadable);
          Outcome(this.(disk := written, memory := Some(loaded)), [retained, written], true)
    }
  }
}
