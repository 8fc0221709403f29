# Form builder system lifecycle

A Dafny model of how the form builder application of the Webiny platform keeps
track of its own installation and version. There is one stored "system" record
per tenant. `install` checks that record and hands the real installation to a
separate installer function without waiting for it. `upgrade` picks one upgrade
plugin, applies it, and then stores the new version. Three GraphQL resolvers turn
these operations into response envelopes.

Modules:

- `Outcomes`: optional values, settled promises (`Result`), and the error object
  shape: message, optional code, optional data.
- `Registry`: registered plugins and the container's `byType` lookup, modelled as
  an order-preserving filter.
- `SystemCrud` (`system.crud.ts`): scope resolution, the storage key, the record
  merge, the install guard, upgrade-candidate selection, and the class
  `FormBuilderSystem`. That class holds the database table (`records`), the log of
  installer invocations (`dispatches`) and the log of applied upgrade plugins
  (`applied`). Its methods `Get`, `Set`, `Install` and `Upgrade` state each new
  state in terms of the old one.
- `FormBuilderGraphQl` (`graphql.ts`): the installation status enum, the response
  envelopes, and the `system`, `install` and `upgrade` resolvers.

Where the model departs from the code as written:

- `set` (system.crud.ts:44) tests the result of `this.get()` without `await`. A
  promise is always truthy, so the update branch always runs, with `system.data`
  undefined. The model follows the evident merge-or-create intent: the read is
  awaited, an existing record gets the patch merged over it, and a missing one is
  created from the patch. The code as written leaves the fate of the old fields to
  the database driver's `update`. That driver is not part of this model, so no
  finding is claimed here.
- The create branch of `set` (system.crud.ts:55-61) nests the patch under a
  `data` field, while the update branch writes the fields at the top level.
  `install` and the GraphQL type `FbSystem` read the fields at the top level. The
  model stores one flat record shape (`System`) in both branches.
- `upgrade` calls `getVersion()` and `setVersion()`, which are not defined. The
  model reads the version with `get()` and stores it with `set({version})`, as the
  comment at system.crud.ts:31-33 says they were folded in. The code as written is
  recorded under "## Findings".
- When the selector finds no plugin, the code faults reading `apply`. The model
  turns this into the error `NoApplicablePlugin`, raised before any apply or
  write. It carries the TypeError's message and no code.
- The install errors share the code `FORM_BUILDER_INSTALL_ABORTED` and differ
  only by message. One record is kept per tenant, not per tenant and locale,
  because `keys()` uses only the tenant. The model follows the code in both.

## Model

| member | source | states |
|---|---|---|
| SystemCrud.ResolveScope | packages/api-form-builder/src/plugins/crud/system.crud.ts:13-22 | a truthy option is used as given; an absent or empty option falls back to the context's tenant or locale |
| SystemCrud.FormBuilderSystem.constructor | packages/api-form-builder/src/plugins/crud/system.crud.ts:10-22 | the tenant and locale are resolved once, option first and context second, and the logs start empty |
| SystemCrud.Keys | packages/api-form-builder/src/plugins/crud/system.crud.ts:24 | the key is built from the tenant alone; the sort key is "FB"; the tenant can be read back from `T#<tenant>#SYSTEM` |
| SystemCrud.KeysInjective | packages/api-form-builder/src/plugins/crud/system.crud.ts:24 | two tenants share a record exactly when their ids print the same |
| SystemCrud.MissingTenantSharesKey | packages/api-form-builder/src/plugins/crud/system.crud.ts:19-24 | with no tenant resolved, the key is that of a tenant whose id is "undefined" |
| SystemCrud.Lookup | packages/api-form-builder/src/plugins/crud/system.crud.ts:35-38 | the record under a key is present exactly when the table holds that key, and is that entry |
| SystemCrud.Read | packages/api-form-builder/src/plugins/crud/system.crud.ts:34-41 | a read rejects exactly when the database is down, with its error; otherwise it yields the record or nothing |
| SystemCrud.FormBuilderSystem.Get | packages/api-form-builder/src/plugins/crud/system.crud.ts:34-41 | `get` yields this tenant's record, absent or not, or the database's rejection, and changes nothing |
| SystemCrud.Merge | packages/api-form-builder/src/plugins/crud/system.crud.ts:49-52 | every field the patch names is overwritten and every field it does not name is kept |
| SystemCrud.MergeOntoEmpty | packages/api-form-builder/src/plugins/crud/system.crud.ts:54-61 | creating a record from a patch stores what merging the patch over an empty record would |
| SystemCrud.MergeEmptyPatch | packages/api-form-builder/src/plugins/crud/system.crud.ts:49-52 | a patch that names nothing leaves the record unchanged |
| SystemCrud.MergeIdempotent | packages/api-form-builder/src/plugins/crud/system.crud.ts:49-52 | setting the same patch twice equals setting it once |
| SystemCrud.MergeCompose | packages/api-form-builder/src/plugins/crud/system.crud.ts:49-52 | two successive sets equal one set of the second patch spread over the first |
| SystemCrud.FormBuilderSystem.Set | packages/api-form-builder/src/plugins/crud/system.crud.ts:43-62 | on success, an existing record gets the patch merged over it and a missing one is created from the patch; only this tenant's entry changes; a read or write failure rejects and leaves the table as it was |
| SystemCrud.InstallGuard | packages/api-form-builder/src/plugins/crud/system.crud.ts:65-80 | install may proceed exactly when there is no record, no installation, or a completed one; a pending installation rejects with "already in progress" and any other status, `error` or none, rejects with "already installed"; both use code FORM_BUILDER_INSTALL_ABORTED |
| SystemCrud.InstallDispatch | packages/api-form-builder/src/plugins/crud/system.crud.ts:82-93 | the installer is invoked with `await: false`, the handler named by the environment, and payload {domain, default locale code, current tenant id}; a missing default locale or current tenant faults instead |
| SystemCrud.InstallOutcome | packages/api-form-builder/src/plugins/crud/system.crud.ts:64-94 | a failed read rejects with its error; a refused guard rejects with the guard's error; otherwise the result is the installer dispatch |
| SystemCrud.InstallRejectsPending | packages/api-form-builder/src/plugins/crud/system.crud.ts:66-72 | a pending installation yields FORM_BUILDER_INSTALL_ABORTED "already in progress" and no dispatch |
| SystemCrud.InstallRejectsUnfinished | packages/api-form-builder/src/plugins/crud/system.crud.ts:74-79 | an installation neither pending nor completed, `error` included, yields FORM_BUILDER_INSTALL_ABORTED "already installed" and no dispatch |
| SystemCrud.InstallDispatchesOnce | packages/api-form-builder/src/plugins/crud/system.crud.ts:64-93 | with no record, no installation or a completed one, exactly one fire-and-forget dispatch with payload {domain, locale, tenant} is produced |
| SystemCrud.FormBuilderSystem.Install | packages/api-form-builder/src/plugins/crud/system.crud.ts:64-94 | the table is never written; the dispatch log grows by exactly the one dispatch when install succeeds, and not at all when it rejects |
| Registry.Filter | packages/api-form-builder/src/plugins/crud/system.crud.ts:101-103 | the result holds exactly the input's elements that pass the test, and is no longer than the input |
| Registry.FilterAppend | packages/api-form-builder/src/plugins/crud/system.crud.ts:101-103 | filtering a concatenation is the concatenation of the filtered parts, so order is kept |
| Registry.FilterMultiplicity | packages/api-form-builder/src/plugins/crud/system.crud.ts:101-103 | each passing value occurs as often as in the input and each failing one not at all, so nothing is added or dropped |
| Registry.FilterFilter | packages/api-form-builder/src/plugins/crud/system.crud.ts:101-103 | two filters in a row equal one filter by the conjunction of their tests |
| Registry.ByType | packages/api-form-builder/src/plugins/crud/system.crud.ts:101-102 | `byType(kind)` holds exactly the registered plugins with that type tag |
| Registry.ByTypeRegistration | packages/api-form-builder/src/plugins/crud/system.crud.ts:101-102 | registering a plugin appends it to the lookup of its own type and to no other, so lookups follow registration order |
| SystemCrud.UpgradeCandidates | packages/api-form-builder/src/plugins/crud/system.crud.ts:101-103 | the candidates are the registry filtered once by "type `api-upgrade` and app `form-builder`", in registration order |
| SystemCrud.CandidatesComplete | packages/api-form-builder/src/plugins/crud/system.crud.ts:101-103 | every registered form-builder upgrade plugin is a candidate as often as it is registered, and no other plugin is |
| SystemCrud.CandidatesRegistration | packages/api-form-builder/src/plugins/crud/system.crud.ts:101-103 | registering a plugin appends it to the end of the candidates exactly when it is a form-builder upgrade plugin |
| SystemCrud.InstalledVersion | packages/api-form-builder/src/plugins/crud/system.crud.ts:107 | the installed version is exactly the stored record's version, and is absent when there is no record |
| SystemCrud.VersionPatch | packages/api-form-builder/src/plugins/crud/system.crud.ts:115 | storing the new version changes the version field of the record and nothing else |
| SystemCrud.UpgradeSelection | packages/api-form-builder/src/plugins/crud/system.crud.ts:96-110 | the selector is consulted only after the identity check and a successful read, and is asked with the deployed version, the installed version read through `get`, the form builder's upgrade candidates and the requested version |
| SystemCrud.UpgradeOutcome | packages/api-form-builder/src/plugins/crud/system.crud.ts:95-118 | with no identity the result is NotAuthorized; a failed read rejects with the read's error, no selected plugin with NoApplicablePlugin, a failed apply with the apply's error and a failed write with the write's error; on success the result is `true`; upgrade succeeds exactly when there is an identity, the read works, a plugin is selected, its apply resolves and the write works |
| SystemCrud.UpgradeNeedsIdentity | packages/api-form-builder/src/plugins/crud/system.crud.ts:96-99 | without an identity the outcome does not depend on the store, the selector or the write, and no plugin is selected |
| SystemCrud.UpgradeApplyFailurePropagates | packages/api-form-builder/src/plugins/crud/system.crud.ts:112 | a selected plugin whose apply rejects makes the upgrade reject with that same error |
| SystemCrud.FormBuilderSystem.Upgrade | packages/api-form-builder/src/plugins/crud/system.crud.ts:95-118 | the result is the upgrade outcome; the selected plugin is applied before anything is stored; on success the stored version is the requested one and the installation is kept; on any failure, including a failed apply, the table is unchanged |
| SystemCrud.UpgradeAsWritten | packages/api-form-builder/src/plugins/crud/system.crud.ts:95-110 | as written, an upgrade with an identity always rejects with "this.getVersion is not a function" |
| SystemCrud.UpgradeAsWrittenNeverSucceeds | packages/api-form-builder/src/plugins/crud/system.crud.ts:107 | wherever the upgrade with `get`/`set` accessors succeeds, the code as written rejects with an error that has no code |
| FormBuilderGraphQl.ParseStatus | packages/api-form-builder/src/plugins/graphql.ts:17-21 | a name that parses as a status is that status's enum name |
| FormBuilderGraphQl.StatusNameRoundTrip | packages/api-form-builder/src/plugins/graphql.ts:17-21 | every status is recovered from its enum name |
| FormBuilderGraphQl.StatusEnumValues | packages/api-form-builder/src/plugins/graphql.ts:17-21 | exactly the names `pending`, `completed` and `error` denote statuses |
| FormBuilderGraphQl.EnvelopeOf | packages/api-form-builder/src/plugins/graphql.ts:111 | `new ErrorResponse(e)` carries e's own code, message and data |
| FormBuilderGraphQl.InstallResolver | packages/api-form-builder/src/plugins/graphql.ts:92-103 | the response is `data = true` exactly when install succeeds; any failure becomes an envelope with code FORM_BUILDER_ERROR and the original message and data |
| FormBuilderGraphQl.UpgradeResolver | packages/api-form-builder/src/plugins/graphql.ts:105-113 | the response is `data = true` exactly when upgrade succeeds; a failure becomes an envelope with the thrown error's own code, message and data |
| FormBuilderGraphQl.ResolversDifferOnCodes | packages/api-form-builder/src/plugins/graphql.ts:97-111 | for an error not already coded FORM_BUILDER_ERROR, the install mutation replaces the code and the upgrade mutation keeps it |
| FormBuilderGraphQl.Settled | packages/api-form-builder/src/plugins/graphql.ts:94 | an install call succeeds exactly when it would dispatch, and otherwise rejects with the same error |
| FormBuilderGraphQl.InstallMutationWhilePending | packages/api-form-builder/src/plugins/graphql.ts:92-103 | an install request while an installation is pending is answered with FORM_BUILDER_ERROR and the "already in progress" message |
| FormBuilderGraphQl.UpgradeMutationWithoutIdentity | packages/api-form-builder/src/plugins/graphql.ts:105-112 | an upgrade request without an identity is answered with the security package's SECURITY_NOT_AUTHORIZED code |
| FormBuilderGraphQl.SystemResolverAsWritten | packages/api-form-builder/src/plugins/graphql.ts:73-89 | as written: null without a current tenant or locale; otherwise the stored record, which may be absent; a failed read escapes uncaught |
| FormBuilderGraphQl.SystemResolver | packages/api-form-builder/src/plugins/graphql.ts:73-89 | null without a current tenant or locale; otherwise the stored record, which may be absent; a failed read becomes a FORM_BUILDER_ERROR envelope (which reaches the client as an `FbSystem` with null fields, since `FbSystem` has no `error` field), and nothing escapes |
| FormBuilderGraphQl.SystemQueryIgnoresStoreWithoutScope | packages/api-form-builder/src/plugins/graphql.ts:76-78 | without a tenant or locale the answer is null whatever the store holds, for the resolver as written and as intended |
| FormBuilderGraphQl.SystemQueryReturnsStored | packages/api-form-builder/src/plugins/graphql.ts:80-81 | with a tenant and a locale and a working store, the query answers the record stored under the tenant's key, or null when there is none |
| FormBuilderGraphQl.SystemResolverAsWrittenEscapes | packages/api-form-builder/src/plugins/graphql.ts:80-88 | the resolver as written differs from the intended one exactly when the scope is present and the read fails |

## Left out

- The upgrade-plugin selector (`getApplicablePlugin`) lives in a library that is not part of this model. Its version-matching rule is left out; the selector is a function parameter. Concrete version scenarios, such as 1.0.0 to 1.1.0 on a 1.2.0 platform, therefore cannot be stated.
- Upgrade plugin `apply` bodies are external. Each plugin carries the outcome of its `apply` (`applyError`). The platform state they change is represented only by the `applied` log.
- The database driver is a map from key to record. It has two injected faults: one that makes every read reject and one that makes every write reject. Driver-specific `update` semantics are not modelled.
- Records hold only `version` and `installation`. Other properties, and a patch that names a field with an explicit `undefined`, are not modelled.
- The create branch's nested `data` shape is not modelled; the model uses the flat shape that `install` and `FbSystem` read.
- `handlerClient.invoke` is a dispatch log. A rejection of the invocation itself is not modelled, and neither is the installer's later write of `pending`, `completed` or `error`, which happens out of band.
- Concurrency is not modelled. Two installs can race between the check and the dispatch. Because `install` never writes the record, every install on an unblocked record dispatches again.
- The security, tenancy and i18n providers are optional fields of `Context`. `NotAuthorized` carries the security package's default message and code, "Not authorized!" and SECURITY_NOT_AUTHORIZED.
- TypeError messages follow the V8 wording and have no code. This covers a null current tenant or default locale during install, and a missing plugin at `apply`.
- The resolved locale is kept but nothing reads it. `keys()` does not read it either.
- An upgrade timeout is not modelled; the source has none.
- Schema wiring (`typeDefs`, the empty `Query.formBuilder` and `Mutation.formBuilder` resolvers) is left out; it has no logic to model.
- The scaffold CLI, Pulumi infrastructure, headless CMS form UI, page duplication resolver, Pulumi error hint, page-builder CRUD registration and handler plugin wrapper are outside this model.

## Findings

| source | as written | input that shows it | evidently intended | confidence | as-written member | corrected member |
|---|---|---|---|---|---|---|
| packages/api-form-builder/src/plugins/crud/system.crud.ts:107 | `upgrade` calls `this.getVersion()` (and later `this.setVersion()`), which the `system` object does not define, so it throws a TypeError as soon as the identity check passes | any upgrade request with an identity, e.g. identity "admin", a readable store, and a selector that picks a plugin whose apply resolves | read the version through `get()` and store it through `set({version})`, as the comment at lines 31-33 describes | high (not executed) | SystemCrud.UpgradeAsWritten, SystemCrud.UpgradeAsWrittenNeverSucceeds | SystemCrud.UpgradeOutcome, SystemCrud.FormBuilderSystem.Upgrade |
| packages/api-form-builder/src/plugins/graphql.ts:81 | the `system` resolver returns `formBuilder.system.get()` without `await`, so a rejected read is never seen by its `catch` | a current tenant and locale are present and the database read rejects | catch the rejection and answer with a FORM_BUILDER_ERROR envelope | high (not executed) | FormBuilderGraphQl.SystemResolverAsWritten, FormBuilderGraphQl.SystemResolverAsWrittenEscapes | FormBuilderGraphQl.SystemResolver, FormBuilderGraphQl.SystemQueryIgnoresStoreWithoutScope |
