/** The core's account operations as they run: one durable write after another, each of which may
    fail, with the state in memory changed where the operation changes it. */
module AccountCore {
  import opened Options
  import opened AccountStore

  class Accounts {
    var savedRegistry: Option<Registry>
    var files: map<Login, Tokens>
    var accounts: Option<Registry>
    var accountClients: map<AccountId, ClientId>
    var credentialWriters: map<AccountId, nat>
    var nextWriter: nat
    var sdk: map<ClientId, Client>
    ghost var issued: nat
    /** Every durable state there was, oldest first: where a crash could have stopped. */
    ghost var history: seq<Disk>

    ghost function State(): Core
      reads this
    {
      Core(Disk(savedRegistry, files), accounts, accountClients, credentialWriters, nextWriter, sdk, issued)
    }

    /** What an operation promises: its outcome, and that its writes were exactly the listed ones. */
    twostate predicate Ran(outcome: Outcome)
      reads this
    {
      State() == outcome.after && history == old(history) + outcome.crashes
    }

    method WriteDisk(disk: Disk)
      modifies this`savedRegistry, this`files, this`history
      ensures State() == old(State()).(disk := disk) && history == old(history) + [disk]
    {
      savedRegistry, files := disk.registry, disk.files;
      history := history + [disk];
    }

    /** Strips the tokens a file already holds, then saves. */
    method WriteRegistry(registry: Registry, unreadable: set<AccountId>, ok: bool)
      modifies this`savedRegistry, this`files, this`history
      ensures var written := old(State()).disk.WriteRegistry(registry, unreadable);
        if ok then State() == old(State()).(disk := written) && history == old(history) + [written]
        else State() == old(State()) && history == old(history)
    {
      var saved: map<AccountId, Account> := map[];
      var rest := registry.accounts.Keys;
      var disk := Disk(savedRegistry, files);
      while rest != {}
        invariant rest <= registry.accounts.Keys && saved.Keys == registry.accounts.Keys - rest
        invariant forall id :: id in saved ==>
          saved[id] == (if id !in unreadable && disk.HasTokens(id, registry.accounts[id])
                        then registry.accounts[id].WithoutTokens() else registry.accounts[id])
      {
        var id :| id in rest;
        var account := registry.accounts[id];
        if id !in unreadable && disk.HasTokens(id, account) { account := account.WithoutTokens(); }
        rest, saved := rest - {id}, saved[id := account];
      }
      if ok {
        assert saved == disk.WriteRegistry(registry, unreadable).registry.value.accounts;
        WriteDisk(disk.(registry := Some(registry.(accounts := saved))));
      }
    }

    method SaveLoginTokens(id: AccountId, account: Account, ok: bool)
      modifies this`savedRegistry, this`files, this`history
      ensures var saved := old(State()).disk.SaveTokens(id, account);
        if ok then State() == old(State()).(disk := saved) && history == old(history) + [saved]
        else State() == old(State()) && history == old(history)
    {
      if ok { WriteDisk(Disk(savedRegistry, files[Login(id, account.device) := account.tokens])); }
    }

    method ForgetLoginTokens(id: AccountId, stuck: set<Login>)
      modifies this`savedRegistry, this`files, this`history
      ensures var forgotten := old(State()).disk.Forget(id, stuck);
        State() == old(State()).(disk := forgotten) && history == old(history) + [forgotten]
    {
      var left: map<Login, Tokens> := map[];
      var rest := files.Keys;
      while rest != {}
        invariant rest <= files.Keys
        invariant left == map login | login in files && login !in rest && (login.account != id || login in stuck) ::
          files[login]
      {
        var login :| login in rest;
        rest := rest - {login};
        if login.account != id || login in stuck { left := left[login := files[login]]; }
      }
      assert left == Disk(savedRegistry, files).Forget(id, stuck).files;
      WriteDisk(Disk(savedRegistry, left));
    }

    method InvalidateAccountClient(id: AccountId)
      modifies this`credentialWriters, this`accountClients
      ensures State() == old(State()).Invalidate(id)
    {
      credentialWriters := credentialWriters - {id};
      accountClients := accountClients - {id};
    }

    method InstallCredentialWriter(client: ClientId, id: AccountId)
      modifies this`credentialWriters, this`nextWriter, this`sdk
      ensures State() == old(State()).InstallWriter(client, id)
    {
      var writer := nextWriter;
      nextWriter := nextWriter + 1;
      credentialWriters := credentialWriters[id := writer];
      if client in sdk && sdk[client].callback.None? {
        sdk := sdk[client := sdk[client].(callback := Some(Callback(id, writer)), rotated := false)];
      }
    }

    method Persist(id: AccountId, account: Account, reauth: Option<Reauth>, unreadable: set<AccountId>, tokensOk: bool,
        registryOk: bool) returns (ok: bool)
      modifies this
      ensures Ran(old(State()).Persist(id, account, reauth, unreadable, tokensOk, registryOk))
      ensures ok == old(State()).Persist(id, account, reauth, unreadable, tokensOk, registryOk).ok
    {
      if accounts.None? { return false; }
      var registry := accounts.value;
      if reauth.Some? {
        var expected := reauth.value.account;
        if !(expected in registry.accounts && registry.accounts[expected].needsReauth
             && registry.accounts[expected].deviceInvalidated == reauth.value.deviceInvalidated) { return false; }
        registry := registry.(accounts := registry.accounts - {expected});
      }
      SaveLoginTokens(id, account, tokensOk);
      if !tokensOk { return false; }
      registry := registry.Upsert(id, account);
      WriteRegistry(registry, unreadable, registryOk);
      if !registryOk { return false; }
      InvalidateAccountClient(id);
      accounts := Some(registry);
      return true;
    }

    method PersistRefreshed(client: ClientId, id: AccountId, writer: nat, unreadable: set<AccountId>, tokensOk: bool,
        registryOk: bool) returns (ok: bool)
      modifies this
      ensures Ran(old(State()).PersistRefreshed(client, id, writer, unreadable, tokensOk, registryOk))
      ensures ok == old(State()).PersistRefreshed(client, id, writer, unreadable, tokensOk, registryOk).ok
    {
      if id !in credentialWriters || credentialWriters[id] != writer { return true; }
      ok := SaveCurrentCredentials(client, id, unreadable, tokensOk, registryOk);
    }

    method SaveCurrentCredentials(client: ClientId, id: AccountId, unreadable: set<AccountId>, tokensOk: bool,
        registryOk: bool) returns (ok: bool)
      requires id in credentialWriters
      modifies this
      ensures Ran(old(State()).PersistRefreshed(client, id, old(credentialWriters[id]), unreadable, tokensOk,
          registryOk))
      ensures ok
          == old(State()).PersistRefreshed(client, id, old(credentialWriters[id]), unreadable, tokensOk, registryOk).ok
    {
      if accounts.None? || id !in accounts.value.accounts { return true; }
      var account := accounts.value.accounts[id];
      if account.needsReauth || client !in sdk { return true; }
      account := account.(device := sdk[client].device, tokens := sdk[client].tokens);
      var updated := accounts.value.Upsert(id, account);
      SaveLoginTokens(id, account, tokensOk);
      if !tokensOk { return false; }
      WriteRegistry(updated, unreadable, registryOk);
      if !registryOk { return false; }
      accounts := Some(updated);
      return true;
    }

    method PrepareAccountClient(client: ClientId, id: AccountId, unreadable: set<AccountId>, registryOk: bool)
      returns (ok: bool)
      modifies this
      ensures Ran(old(State()).PrepareClient(client, id, unreadable, registryOk))
      ensures ok == old(State()).PrepareClient(client, id, unreadable, registryOk).ok
    {
      if accounts.None? || !accounts.value.Usable(id) { return false; }
      if id !in accountClients {
        InstallCredentialWriter(client, id);
        accountClients := accountClients[id := client];
      }
      if client !in sdk { return false; }
      var account := accounts.value.accounts[id].(device := sdk[client].device, tokens := sdk[client].tokens);
      var updated := accounts.value.Upsert(id, account).(active := Some(id));
      WriteRegistry(updated, unreadable, registryOk);
      if !registryOk { return false; }
      accounts := Some(updated);
      return true;
    }

    method MarkAccountNeedsReauth(id: AccountId, invalidated: bool, unreadable: set<AccountId>, stuck: set<Login>,
        registryOk: bool) returns (ok: bool)
      modifies this
      ensures Ran(old(State()).MarkNeedsReauth(id, invalidated, unreadable, stuck, registryOk))
      ensures ok == old(State()).MarkNeedsReauth(id, invalidated, unreadable, stuck, registryOk).ok
    {
      if accounts.None? { return false; }
      if id !in accounts.value.accounts { return true; }
      var account := accounts.value.accounts[id].(needsReauth := true, deviceInvalidated := invalidated);
      if invalidated { account := account.WithoutTokens(); }
      accounts := Some(accounts.value.Upsert(id, account));
      if accounts.value.active == Some(id) { accounts := Some(accounts.value.(active := None)); }
      InvalidateAccountClient(id);
      WriteRegistry(accounts.value, unreadable, registryOk);
      if !registryOk { return false; }
      if invalidated { ForgetLoginTokens(id, stuck); }
      return true;
    }

    method RemoveAccount(id: AccountId, unreadable: set<AccountId>, stuck: set<Login>, registryOk: bool)
      returns (ok: bool)
      modifies this
      ensures Ran(old(State()).RemoveAccount(id, unreadable, stuck, registryOk))
      ensures ok == old(State()).RemoveAccount(id, unreadable, stuck, registryOk).ok
    {
      if accounts.None? { return false; }
      InvalidateAccountClient(id);
      accounts := Some(accounts.value.(accounts := accounts.value.accounts - {id}));
      if accounts.value.active == Some(id) { accounts := Some(accounts.value.(active := None)); }
      WriteRegistry(accounts.value, unreadable, registryOk);
      if !registryOk { return false; }
      ForgetLoginTokens(id, stuck);
      return true;
    }

    method ClearPersistedSession(ok: bool)
      modifies this
      ensures Ran(old(State()).ClearPersisted(ok))
    {
      if !ok { return; }
      WriteDisk(Disk(None, files));
      WriteDisk(Disk(None, map[]));
    }

    /** The tokens the login's file holds, for the account's current writer only. */
    method ReloadSavedTokens(client: ClientId, id: AccountId, writer: nat, readable: bool) returns (ok: bool)
      modifies this`sdk
      ensures Ran(old(State()).ReloadSaved(client, id, writer, readable))
      ensures ok == old(State()).ReloadSaved(client, id, writer, readable).ok
    {
      if id !in credentialWriters || credentialWriters[id] != writer { return false; }
      if accounts.None? || !accounts.value.Usable(id) { return false; }
      var login := Login(id, accounts.value.accounts[id].device);
      if !readable || login !in files || files[login].Blank() || client !in sdk { return false; }
      sdk := sdk[client := sdk[client].(tokens := files[login], rotated := false)];
      return true;
    }

    /** Builds a client from the login's file, unless one is cached; `restored` is whether the SDK takes
        the tokens, which it is given after its writer was installed. */
    method SavedAccountClient(built: ClientId, id: AccountId, device: DeviceId, restored: bool)
      returns (client: Option<ClientId>)
      requires built !in sdk
      modifies this
      ensures history == old(history) && savedRegistry == old(savedRegistry)
      ensures files == old(files) && accounts == old(accounts)
      ensures id in old(accountClients) ==> client == Some(old(accountClients)[id]) && State() == old(State())
      ensures id !in old(accountClients) ==>
        var read := old(State()).ReadSaved(built, id, device);
        var installed := read.after.InstallWriter(built, id);
        && client == (if read.ok && restored then Some(built) else None)
        && State()
            == (if !read.ok then old(State()) else if restored then installed.CacheClient(built, id) else installed)
    {
      if id in accountClients { return Some(accountClients[id]); }
      var login := Login(id, device);
      if login !in files || files[login].Blank() { return None; }
      sdk := sdk[built := Client(device, files[login], None, false)];
      InstallCredentialWriter(built, id);
      if !restored { return None; }
      accountClients := accountClients[id := built];
      return Some(built);
    }

    /** Reads the registry into memory once; `failing` are the accounts whose new file cannot be
        written, `reanchored` whether their store paths moved. */
    method LoadAccounts(unreadable: set<AccountId>, failing: set<AccountId>, stuck: set<Login>, reanchored: bool,
        registryOk: bool)
      returns (ok: bool, ghost order: seq<AccountId>)
      modifies this
      ensures old(accounts).Some? || old(savedRegistry).None? ==> order == []
      ensures old(accounts).None? && old(savedRegistry).Some? ==>
        forall id :: id in order <==> id in old(savedRegistry).value.accounts && id !in unreadable && id !in failing
      ensures var migrated := old(State()).MigrateAll(order);
        var load := migrated.after.Load(unreadable, stuck, reanchored || migrated.crashes != [], registryOk);
        && State() == load.after && ok == load.ok
        && history == old(history) + migrated.crashes + load.crashes
    {
      if accounts.Some? { return true, []; }
      if savedRegistry.None? {
        accounts := Some(Registry(None, map[]));
        return true, [];
      }
      var embedded;
      embedded, order := MigrateTokens(savedRegistry.value.accounts.Keys - unreadable - failing);
      ok := FinishLoad(unreadable, stuck, reanchored || embedded, registryOk);
    }

    method MigrateTokens(tried: set<AccountId>) returns (embedded: bool, ghost order: seq<AccountId>)
      requires accounts.None? && savedRegistry.Some? && tried <= savedRegistry.value.accounts.Keys
      modifies this`files, this`savedRegistry, this`history
      ensures Ran(old(State()).MigrateAll(order))
      ensures embedded <==> old(State()).MigrateAll(order).crashes != []
      ensures forall id :: id in order <==> id in tried
      ensures accounts.None? && savedRegistry == old(savedRegistry)
    {
      embedded, order := false, [];
      var rest := tried;
      while rest != {}
        invariant rest <= tried && savedRegistry == old(savedRegistry)
        invariant Ran(old(State()).MigrateAll(order))
        invariant embedded <==> old(State()).MigrateAll(order).crashes != []
        invariant forall id :: id in order <==> id in tried - rest
      {
        var id :| id in rest;
        rest := rest - {id};
        var account := savedRegistry.value.accounts[id];
        ghost var earlier := order;
        order := order + [id];
        assert order[..|order| - 1] == earlier;
        if !account.needsReauth && !account.deviceInvalidated && !account.tokens.Blank()
          && Login(id, account.device) !in files {
          SaveLoginTokens(id, account, true);
          embedded := true;
        }
      }
    }

    method FinishLoad(unreadable: set<AccountId>, stuck: set<Login>, changed: bool, registryOk: bool) returns (ok: bool)
      requires accounts.None? && savedRegistry.Some?
      modifies this
      ensures Ran(old(State()).Load(unreadable, stuck, changed, registryOk))
      ensures ok == old(State()).Load(unreadable, stuck, changed, registryOk).ok
    {
      var registry := LoadTokens(savedRegistry.value, unreadable);
      RetainFiles(registry, stuck);
      if changed || exists id :: id in registry.accounts && registry.accounts[id].deviceInvalidated {
        WriteRegistry(registry, unreadable, registryOk);
        if !registryOk { return false; }
      }
      accounts := Some(registry);
      return true;
    }

    method LoadTokens(registry: Registry, unreadable: set<AccountId>) returns (loaded: Registry)
      ensures loaded == State().Loaded(registry, unreadable)
    {
      var tokens: map<AccountId, Account> := map[];
      var rest := registry.accounts.Keys;
      while rest != {}
        invariant rest <= registry.accounts.Keys && tokens.Keys == registry.accounts.Keys - rest
        invariant forall id :: id in tokens ==> tokens[id] == State().Loaded(registry, unreadable).accounts[id]
      {
        var id :| id in rest;
        var account := registry.accounts[id];
        if account.deviceInvalidated { account := account.WithoutTokens(); }
        if !account.needsReauth && id !in unreadable && Disk(savedRegistry, files).HasTokens(id, account) {
          account := account.(tokens := files[Login(id, account.device)]);
        }
        rest, tokens := rest - {id}, tokens[id := account];
      }
      assert tokens == State().Loaded(registry, unreadable).accounts;
      loaded := registry.(accounts := tokens);
    }

    method RetainFiles(registry: Registry, stuck: set<Login>)
      modifies this`savedRegistry, this`files, this`history
      ensures var retained := old(State()).disk.(files := map login | login in old(files) &&
          ((login.account in registry.accounts && registry.accounts[login.account].device == login.device)
            || login in stuck)
          :: old(files)[login]);
        State() == old(State()).(disk := retained) && history == old(history) + [retained]
    {
      var left: map<Login, Tokens> := map[];
      var rest := files.Keys;
      while rest != {}
        invariant rest <= files.Keys
        invariant left == map login | login in files && login !in rest &&
          ((login.account in registry.accounts && registry.accounts[login.account].device == login.device)
            || login in stuck) :: files[login]
      {
        var login :| login in rest;
        rest := rest - {login};
        if (login.account in registry.accounts && registry.accounts[login.account].device == login.device)
          || login in stuck {
          left := left[login := files[login]];
        }
      }
      WriteDisk(Disk(savedRegistry, left));
    }
  }
}
