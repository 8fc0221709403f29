/**
 * The form builder's `system` CRUD: one stored record per tenant holding the
 * installed version and the installation status, an install operation that hands
 * the work to a separate installer function, and an upgrade operation that applies
 * one upgrade plugin and then stores the new version.
 *
 * The database, the installer invocation and the applied plugins are external: the
 * database is a map from storage key to record, the installer a log of dispatches,
 * and plugin application a log of the plugins whose `apply` was called.
 */
module SystemCrud {
  import opened Outcomes
  import opened Registry

  /** The installation status enum of the GraphQL schema: `pending`, `completed` and `error`. */
  datatype InstallationStatus = Pending | Completed | Failed

  datatype Installation = Installation(status: Option<InstallationStatus>, error: Option<Error>)

  /**
   * The stored system record. A field that is None is absent from the record; in a
   * patch given to `set`, a field that is None is not named by the patch.
   */
  datatype System = System(version: Option<string>, installation: Option<Installation>)

  const EmptySystem := System(None, None)

  /** The storage key of a record: partition key and sort key. */
  datatype Key = Key(pk: string, sk: string)

  /** Options passed when the plugin is created; each overrides what the request context says. */
  datatype Options = Options(tenant: Option<string>, locale: Option<string>)

  /**
   * What the request context provides: the current tenant's id, the content locale's
   * code, the default locale's code, the authenticated identity, the registered
   * plugins, the deployed platform version and the name of the installer function
   * (an environment variable, which may be unset).
   */
  datatype Context = Context(
    currentTenant: Option<string>,
    contentLocale: Option<string>,
    defaultLocale: Option<string>,
    identity: Option<string>,
    plugins: seq<Plugin>,
    deployedVersion: string,
    installationHandler: Option<string>)

  datatype InstallPayload = InstallPayload(domain: Option<string>, locale: string, tenant: string)

  /** One invocation of a remote function; `awaitResult` false means fire-and-forget. */
  datatype Dispatch = Dispatch(name: Option<string>, awaitResult: bool, payload: InstallPayload)

  /** The question put to the upgrade-plugin selector, field for field. */
  datatype UpgradeQuery = UpgradeQuery(
    deployedVersion: string,
    installedAppVersion: Option<string>,
    upgradePlugins: seq<Plugin>,
    upgradeToVersion: string)

  const InstallAbortedCode := "FORM_BUILDER_INSTALL_ABORTED"
  const InstallInProgress := Error("Form builder installation is already in progress.", Some(InstallAbortedCode), None)
  const AlreadyInstalled := Error("Form builder is already installed.", Some(InstallAbortedCode), None)
  /** The security package's `NotAuthorizedError`, with that package's default message and code. */
  const NotAuthorized := Error("Not authorized!", Some("SECURITY_NOT_AUTHORIZED"), None)
  /** The selector found no plugin: the code would fail reading `apply` of nothing, a TypeError. */
  const NoApplicablePlugin := Error("Cannot read properties of undefined (reading 'apply')", None, None)
  /** `tenancy.getCurrentTenant()` gave null while the install payload was built. */
  const NoCurrentTenant := Error("Cannot read properties of null (reading 'id')", None, None)
  /** `i18n.getDefaultLocale()` gave null while the install payload was built. */
  const NoDefaultLocale := Error("Cannot read properties of null (reading 'code')", None, None)

  // ---------------------------------------------------------------------------
  // Scope and storage key

  /** An option wins when it is truthy; an absent option or the empty string falls back. */
  function ResolveScope(given: Option<string>, fallback: Option<string>): (r: Option<string>)
    ensures given.Some? && given.value != "" ==> r == given
    ensures given.None? || given.value == "" ==> r == fallback
  {
    if given.Some? && given.value != "" then given else fallback
  }

  /** How a template literal prints the tenant: an absent tenant prints as "undefined". */
  function TenantText(tenant: Option<string>): string
  {
    match tenant
    case Some(t) => t
    case None => "undefined"
  }

  /** The tenant a partition key was built for, if it has the shape `T#<tenant>#SYSTEM`. */
  function TenantOfPk(pk: string): Option<string>
  {
    if |pk| >= 9 && pk[..2] == "T#" && pk[|pk| - 7..] == "#SYSTEM" then Some(pk[2..|pk| - 7]) else None
  }

  /** `keys()`: the record's key depends on the tenant alone, and the tenant can be read back from it. */
  function Keys(tenant: Option<string>): (k: Key)
    ensures k.sk == "FB"
    ensures TenantOfPk(k.pk) == Some(TenantText(tenant))
  {
    var pk := "T#" + TenantText(tenant) + "#SYSTEM";
    assert pk[..2] == "T#";
    assert pk[|pk| - 7..] == "#SYSTEM";
    assert pk[2..|pk| - 7] == TenantText(tenant);
    Key(pk, "FB")
  }

  /** Two tenants share a record exactly when they print the same. */
  lemma KeysInjective(a: Option<string>, b: Option<string>)
    ensures Keys(a) == Keys(b) <==> TenantText(a) == TenantText(b)
  {
    if Keys(a) == Keys(b) {
      assert Some(TenantText(a)) == TenantOfPk(Keys(a).pk) == TenantOfPk(Keys(b).pk) == Some(TenantText(b));
    }
  }

  /** A missing tenant and a tenant whose id is "undefined" share one record. */
  lemma MissingTenantSharesKey()
    ensures Keys(None) == Keys(Some("undefined"))
  {
  }

  function Lookup(records: map<Key, System>, key: Key): (r: Option<System>)
    ensures r.Some? <==> key in records
    ensures r.Some? ==> r.value == records[key]
  {
    if key in records then Some(records[key]) else None
  }

  /** A database read: it rejects with the store's fault, or yields the record, which may be absent. */
  function Read(records: map<Key, System>, key: Key, fault: Option<Error>): (r: Result<Option<System>, Error>)
    ensures fault.Some? <==> r.Err?
    ensures r.Err? ==> r.error == fault.value
    ensures r.Ok? ==> r.value == Lookup(records, key)
  {
    if fault.Some? then Err(fault.value) else Ok(Lookup(records, key))
  }

  // ---------------------------------------------------------------------------
  // set: merge a patch over the stored record

  /** One field of a shallow object spread: a value the patch names wins. */
  function Overlay<T>(base: Option<T>, patch: Option<T>): Option<T>
  {
    if patch.Some? then patch else base
  }

  /** `{ ...base, ...patch }`: every field the patch names is overwritten, every other field is kept. */
  function Merge(base: System, patch: System): (r: System)
    ensures patch.version.Some? ==> r.version == patch.version
    ensures patch.version.None? ==> r.version == base.version
    ensures patch.installation.Some? ==> r.installation == patch.installation
    ensures patch.installation.None? ==> r.installation == base.installation
  {
    System(Overlay(base.version, patch.version), Overlay(base.installation, patch.installation))
  }

  /** Creating a record from a patch stores what merging it over an empty record would. */
  lemma MergeOntoEmpty(patch: System)
    ensures Merge(EmptySystem, patch) == patch
  {
  }

  /** A patch that names nothing leaves the record as it was. */
  lemma MergeEmptyPatch(base: System)
    ensures Merge(base, EmptySystem) == base
  {
  }

  /** Setting the same patch twice is setting it once. */
  lemma MergeIdempotent(base: System, patch: System)
    ensures Merge(Merge(base, patch), patch) == Merge(base, patch)
  {
  }

  /** Two successive sets equal one set of the second patch spread over the first. */
  lemma MergeCompose(base: System, first: System, second: System)
    ensures Merge(Merge(base, first), second) == Merge(base, Merge(first, second))
  {
  }

  // ---------------------------------------------------------------------------
  // install

  /** When a new installation may start: no record, no installation on it, or a completed one. */
  predicate InstallAllowed(stored: Option<System>)
  {
    || stored.None?
    || stored.value.installation.None?
    || stored.value.installation.value.status == Some(Completed)
  }

  /** The checks `install` makes on the stored record before it dispatches anything. */
  function InstallGuard(stored: Option<System>): (r: Result<(), Error>)
    ensures r.Ok? <==> InstallAllowed(stored)
    ensures r.Err? ==> r.error.code == Some(InstallAbortedCode)
    ensures r.Err? ==> (r.error == InstallInProgress <==> stored.value.installation.value.status == Some(Pending))
    ensures r.Err? ==> (r.error == AlreadyInstalled <==> stored.value.installation.value.status != Some(Pending))
  {
    if stored.Some? && stored.value.installation.Some? then
      var installation := stored.value.installation.value;
      if installation.status == Some(Pending) then Err(InstallInProgress)
      else if installation.status != Some(Completed) then Err(AlreadyInstalled)
      else Ok(())
    else Ok(())
  }

  /** The dispatch of the installer, built from the default locale and the current tenant. */
  function InstallDispatch(ctx: Context, domain: Option<string>): (r: Result<Dispatch, Error>)
    ensures r.Ok? <==> ctx.defaultLocale.Some? && ctx.currentTenant.Some?
    ensures ctx.defaultLocale.None? ==> r == Err(NoDefaultLocale)
    ensures ctx.defaultLocale.Some? && ctx.currentTenant.None? ==> r == Err(NoCurrentTenant)
    ensures r.Ok? ==> !r.value.awaitResult && r.value.name == ctx.installationHandler
    ensures r.Ok? ==> r.value.payload == InstallPayload(domain, ctx.defaultLocale.value, ctx.currentTenant.value)
  {
    match (ctx.defaultLocale, ctx.currentTenant)
    case (None, _) => Err(NoDefaultLocale)
    case (Some(_), None) => Err(NoCurrentTenant)
    case (Some(locale), Some(tenant)) => Ok(Dispatch(ctx.installationHandler, false, InstallPayload(domain, locale, tenant)))
  }

  /**
   * What `install` does given the outcome of its read: the dispatch it makes, or the
   * error it rejects with (in which case it dispatches nothing).
   */
  function InstallOutcome(read: Result<Option<System>, Error>, ctx: Context, domain: Option<string>): (r: Result<Dispatch, Error>)
    ensures read.Err? ==> r == Err(read.error)
    ensures read.Ok? && !InstallAllowed(read.value) ==> r == Err(InstallGuard(read.value).error)
    ensures read.Ok? && InstallAllowed(read.value) ==> r == InstallDispatch(ctx, domain)
  {
    if read.Err? then Err(read.error)
    else if InstallGuard(read.value).Err? then Err(InstallGuard(read.value).error)
    else InstallDispatch(ctx, domain)
  }

  /** A pending installation rejects with "already in progress" and makes no dispatch. */
  lemma InstallRejectsPending(s: System, ctx: Context, domain: Option<string>)
    requires s.installation.Some? && s.installation.value.status == Some(Pending)
    ensures InstallOutcome(Ok(Some(s)), ctx, domain) == Err(InstallInProgress)
  {
  }

  /** Any other unfinished installation, an errored one included, rejects with "already installed". */
  lemma InstallRejectsUnfinished(s: System, ctx: Context, domain: Option<string>)
    requires s.installation.Some? && s.installation.value.status != Some(Pending)
    requires s.installation.value.status != Some(Completed)
    ensures InstallOutcome(Ok(Some(s)), ctx, domain) == Err(AlreadyInstalled)
  {
  }

  /** With no record, no installation or a completed one, exactly one fire-and-forget dispatch is made. */
  lemma InstallDispatchesOnce(stored: Option<System>, ctx: Context, domain: Option<string>, locale: string, tenant: string)
    requires InstallAllowed(stored)
    requires ctx.defaultLocale == Some(locale) && ctx.currentTenant == Some(tenant)
    ensures InstallOutcome(Ok(stored), ctx, domain) == Ok(Dispatch(ctx.installationHandler, false, InstallPayload(domain, locale, tenant)))
  {
  }

  // ---------------------------------------------------------------------------
  // upgrade

  /** An upgrade plugin of the form builder: type `api-upgrade` and app `form-builder`. */
  predicate IsFormBuilderUpgrade(p: Plugin)
  {
    p.kind == "api-upgrade" && p.app == Some("form-builder")
  }

  /** The candidates handed to the selector: the form builder's upgrade plugins, in registration order. */
  function UpgradeCandidates(plugins: seq<Plugin>): (r: seq<Plugin>)
    ensures r == Filter(plugins, IsFormBuilderUpgrade)
  {
    var ofApp := (p: Plugin) => p.app == Some("form-builder");
    FilterFilter(plugins, (p: Plugin) => p.kind == "api-upgrade", ofApp, IsFormBuilderUpgrade);
    Filter(ByType(plugins, "api-upgrade"), ofApp)
  }

  /** Every registered form-builder upgrade plugin is a candidate as often as it is registered; nothing else is. */
  lemma CandidatesComplete(plugins: seq<Plugin>, p: Plugin)
    ensures multiset(UpgradeCandidates(plugins))[p] == if IsFormBuilderUpgrade(p) then multiset(plugins)[p] else 0
  {
    FilterMultiplicity(plugins, IsFormBuilderUpgrade, p);
  }

  /** Registering a plugin appends it to the candidates when it is a form-builder upgrade plugin. */
  lemma CandidatesRegistration(plugins: seq<Plugin>, p: Plugin)
    ensures UpgradeCandidates(plugins + [p])
         == UpgradeCandidates(plugins) + (if IsFormBuilderUpgrade(p) then [p] else [])
  {
    FilterAppend(plugins, [p], IsFormBuilderUpgrade);
    assert [p][1..] == [];
  }

  /** `getVersion()`, folded into `get()`: the version on the stored record, if any. */
  function InstalledVersion(stored: Option<System>): (v: Option<string>)
    ensures stored.Some? ==> v == stored.value.version
    ensures stored.None? ==> v.None?
  {
    if stored.Some? then stored.value.version else None
  }

  /** The patch `setVersion(version)` stands for, folded into `set()`: names the version only. */
  function VersionPatch(version: string): (patch: System)
    ensures forall base :: Merge(base, patch) == base.(version := Some(version))
  {
    System(Some(version), None)
  }

  /** The plugin `upgrade` applies: the selector's answer, asked only once identity and read have succeeded. */
  function UpgradeSelection(ctx: Context, read: Result<Option<System>, Error>,
                            select: UpgradeQuery -> Option<Plugin>, version: string): (p: Option<Plugin>)
    ensures ctx.identity.None? || read.Err? ==> p.None?
    ensures ctx.identity.Some? && read.Ok?
            ==> p == select(UpgradeQuery(ctx.deployedVersion, InstalledVersion(read.value),
                                         UpgradeCandidates(ctx.plugins), version))
  {
    if ctx.identity.None? || read.Err? then None
    else select(UpgradeQuery(ctx.deployedVersion, InstalledVersion(read.value), UpgradeCandidates(ctx.plugins), version))
  }

  /** What `upgrade` settles with, given its read, the selector and the store's write fault. */
  function UpgradeOutcome(ctx: Context, read: Result<Option<System>, Error>,
                          select: UpgradeQuery -> Option<Plugin>, version: string,
                          writeFault: Option<Error>): (r: Result<bool, Error>)
    ensures ctx.identity.None? ==> r == Err(NotAuthorized)
    ensures ctx.identity.Some? && read.Err? ==> r == Err(read.error)
    ensures ctx.identity.Some? && read.Ok? && UpgradeSelection(ctx, read, select, version).None?
            ==> r == Err(NoApplicablePlugin)
    ensures ctx.identity.Some? && read.Ok? && UpgradeSelection(ctx, read, select, version).Some?
            && UpgradeSelection(ctx, read, select, version).value.applyError.Some?
            ==> r == Err(UpgradeSelection(ctx, read, select, version).value.applyError.value)
    ensures ctx.identity.Some? && read.Ok? && UpgradeSelection(ctx, read, select, version).Some?
            && UpgradeSelection(ctx, read, select, version).value.applyError.None? && writeFault.Some?
            ==> r == Err(writeFault.value)
    ensures r.Ok? ==> r.value
    ensures r.Ok? <==> && ctx.identity.Some? && read.Ok?
                       && UpgradeSelection(ctx, read, select, version).Some?
                       && UpgradeSelection(ctx, read, select, version).value.applyError.None?
                       && writeFault.None?
  {
    if ctx.identity.None? then Err(NotAuthorized)
    else if read.Err? then Err(read.error)
    else
      var selected := UpgradeSelection(ctx, read, select, version);
      if selected.None? then Err(NoApplicablePlugin)
      else if selected.value.applyError.Some? then Err(selected.value.applyError.value)
      else if writeFault.Some? then Err(writeFault.value)
      else Ok(true)
  }

  /** Without an identity the upgrade is refused whatever the store holds and whatever the selector says. */
  lemma UpgradeNeedsIdentity(ctx: Context, read1: Result<Option<System>, Error>, read2: Result<Option<System>, Error>,
                             select1: UpgradeQuery -> Option<Plugin>, select2: UpgradeQuery -> Option<Plugin>,
                             version: string, fault1: Option<Error>, fault2: Option<Error>)
    requires ctx.identity.None?
    ensures UpgradeOutcome(ctx, read1, select1, version, fault1) == UpgradeOutcome(ctx, read2, select2, version, fault2)
    ensures UpgradeSelection(ctx, read1, select1, version).None?
  {
  }

  /** A plugin whose `apply` rejects makes the upgrade reject with that same error. */
  lemma UpgradeApplyFailurePropagates(ctx: Context, read: Result<Option<System>, Error>,
                                      select: UpgradeQuery -> Option<Plugin>, version: string,
                                      writeFault: Option<Error>, p: Plugin)
    requires ctx.identity.Some? && read.Ok?
    requires UpgradeSelection(ctx, read, select, version) == Some(p) && p.applyError.Some?
    ensures UpgradeOutcome(ctx, read, select, version, writeFault) == Err(p.applyError.value)
  {
  }

  // ---------------------------------------------------------------------------
  // upgrade as the code is written

  const GetVersionNotAFunction := Error("this.getVersion is not a function", None, None)

  /**
   * `upgrade` as written calls `this.getVersion()`, which the `system` object does not
   * define: once the identity check passes, the call throws a TypeError before the
   * selector is asked, any plugin is applied or anything is stored.
   */
  function UpgradeAsWritten(ctx: Context): (r: Result<bool, Error>)
    ensures ctx.identity.None? ==> r == Err(NotAuthorized)
    ensures ctx.identity.Some? ==> r == Err(GetVersionNotAFunction)
  {
    if ctx.identity.None? then Err(NotAuthorized) else Err(GetVersionNotAFunction)
  }

  /** Wherever the corrected upgrade succeeds, the upgrade as written rejects instead. */
  lemma UpgradeAsWrittenNeverSucceeds(ctx: Context, read: Result<Option<System>, Error>,
                                      select: UpgradeQuery -> Option<Plugin>, version: string)
    requires ctx.identity.Some? && read.Ok?
    requires UpgradeSelection(ctx, read, select, version).Some?
    requires UpgradeSelection(ctx, read, select, version).value.applyError.None?
    ensures UpgradeOutcome(ctx, read, select, version, None) == Ok(true)
    ensures UpgradeAsWritten(ctx).Err? && UpgradeAsWritten(ctx).error.code.None?
  {
  }

  // ---------------------------------------------------------------------------
  // The `system` object on the context

  /**
   * `context.formBuilder.system` for one request. The tenant and locale are resolved
   * once, when the context plugin runs. `records` is the database table, `dispatches`
   * the invocations made through the handler client, `applied` the upgrade plugins
   * whose `apply` was called. `readFault` and `writeFault` are database outages:
   * when set, every read (or write) rejects with that error.
   */
  class FormBuilderSystem {
    const ctx: Context
    const tenant: Option<string>
    const locale: Option<string>
    const readFault: Option<Error>
    const writeFault: Option<Error>
    var records: map<Key, System>
    var dispatches: seq<Dispatch>
    var applied: seq<Plugin>

    constructor(options: Options, ctx: Context, records: map<Key, System>,
                readFault: Option<Error>, writeFault: Option<Error>)
      ensures this.ctx == ctx && this.readFault == readFault && this.writeFault == writeFault
      ensures tenant == ResolveScope(options.tenant, ctx.currentTenant)
      ensures locale == ResolveScope(options.locale, ctx.contentLocale)
      ensures this.records == records && dispatches == [] && applied == []
    {
      this.ctx := ctx;
      this.readFault := readFault;
      this.writeFault := writeFault;
      var t := options.tenant;
      if t.None? || t.value == "" {
        t := ctx.currentTenant;
      }
      var l := options.locale;
      if l.None? || l.value == "" {
        l := ctx.contentLocale;
      }
      tenant := t;
      locale := l;
      this.records := records;
      dispatches := [];
      applied := [];
    }

    /** The record stored under this tenant's key, if any. */
    function Stored(): Option<System>
      reads this
    {
      Lookup(records, Keys(tenant))
    }

    /** `get()`: reads the tenant's record; changes nothing. */
    method Get() returns (r: Result<Option<System>, Error>)
      ensures r == Read(records, Keys(tenant), readFault)
    {
      if readFault.Some? {
        return Err(readFault.value);
      }
      r := Ok(Stored());
    }

    /**
     * `set(data)`: reads the record, then merges `data` over it when it exists and
     * creates it from `data` when it does not. Only the tenant's record changes.
     */
    method Set(data: System) returns (r: Result<(), Error>)
      modifies this`records
      ensures readFault.Some? ==> r == Err(readFault.value)
      ensures readFault.None? && writeFault.Some? ==> r == Err(writeFault.value)
      ensures r.Ok? <==> readFault.None? && writeFault.None?
      ensures r.Ok? && old(Stored()).Some? ==> records == old(records)[Keys(tenant) := Merge(old(Stored()).value, data)]
      ensures r.Ok? && old(Stored()).None? ==> records == old(records)[Keys(tenant) := data]
      ensures r.Err? ==> records == old(records)
    {
      var system := Get();
      if system.Err? {
        return Err(system.error);
      }
      if writeFault.Some? {
        return Err(writeFault.value);
      }
      match system.value {
        case Some(s) =>
          records := records[Keys(tenant) := Merge(s, data)];
        case None =>
          records := records[Keys(tenant) := data];
      }
      r := Ok(());
    }

    /**
     * `install({domain})`: reads the record, refuses while an installation is pending
     * or unfinished, and otherwise dispatches the installer without waiting for it.
     * The record itself is never written here.
     */
    method Install(domain: Option<string>) returns (r: Result<(), Error>)
      modifies this`dispatches
      ensures records == old(records)
      ensures var outcome := InstallOutcome(Read(records, Keys(tenant), readFault), ctx, domain);
              && (outcome.Ok? ==> dispatches == old(dispatches) + [outcome.value] && r == Ok(()))
              && (outcome.Err? ==> dispatches == old(dispatches) && r == Err(outcome.error))
    {
      var system := Get();
      if system.Err? {
        return Err(system.error);
      }
      var guard := InstallGuard(system.value);
      if guard.Err? {
        return Err(guard.error);
      }
      var dispatch := InstallDispatch(ctx, domain);
      if dispatch.Err? {
        return Err(dispatch.error);
      }
      dispatches := dispatches + [dispatch.value];
      r := Ok(());
    }

    /**
     * `upgrade(version)`: requires an identity, asks the selector for one of the form
     * builder's upgrade plugins, applies it and only then stores the new version.
     */
    method Upgrade(version: string, select: UpgradeQuery -> Option<Plugin>) returns (r: Result<bool, Error>)
      modifies this`records, this`applied
      ensures r == UpgradeOutcome(ctx, Read(old(records), Keys(tenant), readFault), select, version, writeFault)
      ensures ctx.identity.None? ==> r == Err(NotAuthorized) && records == old(records) && applied == old(applied)
      ensures var selected := UpgradeSelection(ctx, Read(old(records), Keys(tenant), readFault), select, version);
              applied == old(applied) + (if selected.Some? then [selected.value] else [])
      ensures r.Ok? ==> records == old(records)[Keys(tenant) := Merge(old(Stored()).GetOr(EmptySystem), VersionPatch(version))]
      ensures r.Ok? ==> Stored().Some? && Stored().value.version == Some(version)
      ensures r.Err? ==> records == old(records)
    {
      if ctx.identity.None? {
        return Err(NotAuthorized);
      }
      var upgradePlugins := UpgradeCandidates(ctx.plugins);
      var system := Get();
      if system.Err? {
        return Err(system.error);
      }
      var plugin := select(UpgradeQuery(ctx.deployedVersion, InstalledVersion(system.value), upgradePlugins, version));
      if plugin.None? {
        return Err(NoApplicablePlugin);
      }
      applied := applied + [plugin.value];
      if plugin.value.applyError.Some? {
        return Err(plugin.value.applyError.value);
      }
      var stored := Set(VersionPatch(version));
      if stored.Err? {
        return Err(stored.error);
      }
      MergeOntoEmpty(VersionPatch(version));
      r := Ok(true);
    }
  }
}
