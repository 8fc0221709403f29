/**
 * The form builder's GraphQL resolvers: the `system` query and the `install` and
 * `upgrade` mutations. Each resolver is a guard and a try/catch that turns the
 * settled outcome of a `system` operation into a response envelope.
 */
module FormBuilderGraphQl {
  import opened Outcomes
  import opened Registry
  import opened SystemCrud

  // ---------------------------------------------------------------------------
  // The installation status enum

  /** The name of each value of `FbSystemInstallationStatusEnum`. */
  function StatusName(s: InstallationStatus): string
  {
    match s
    case Pending => "pending"
    case Completed => "completed"
    case Failed => "error"
  }

  /** The enum value a name denotes, if it denotes one. */
  function ParseStatus(name: string): (r: Option<InstallationStatus>)
    ensures r.Some? ==> StatusName(r.value) == name
  {
    if name == "pending" then Some(Pending)
    else if name == "completed" then Some(Completed)
    else if name == "error" then Some(Failed)
    else None
  }

  /** Every status survives being written by name and read back. */
  lemma StatusNameRoundTrip(s: InstallationStatus)
    ensures ParseStatus(StatusName(s)) == Some(s)
  {
  }

  /** The enum has exactly three values, named `pending`, `completed` and `error`. */
  lemma StatusEnumValues(name: string)
    ensures ParseStatus(name).Some? <==> name in {"pending", "completed", "error"}
  {
  }

  // ---------------------------------------------------------------------------
  // Response envelopes

  const FormBuilderErrorCode := "FORM_BUILDER_ERROR"

  /** The `error` part of an envelope: `FbError` with code, message and data. */
  datatype ErrorInfo = ErrorInfo(code: Option<string>, message: string, data: Option<Json>)

  /** `FbBooleanResponse`: `new Response(data)` or `new ErrorResponse(error)`. */
  datatype BooleanResponse = Response(data: bool) | ErrorResponse(error: ErrorInfo)

  /** `new ErrorResponse(e)`: the envelope keeps the thrown error's own code, message and data. */
  function EnvelopeOf(e: Error): (info: ErrorInfo)
    ensures info.code == e.code && info.message == e.message && info.data == e.data
  {
    ErrorInfo(e.code, e.message, e.data)
  }

  /** The `install` mutation: true on success; any failure is re-coded as FORM_BUILDER_ERROR. */
  function InstallResolver(outcome: Result<(), Error>): (r: BooleanResponse)
    ensures r.Response? <==> outcome.Ok?
    ensures r.Response? ==> r.data
    ensures outcome.Err? ==> r.error.code == Some(FormBuilderErrorCode)
    ensures outcome.Err? ==> r.error.message == outcome.error.message && r.error.data == outcome.error.data
  {
    match outcome
    case Ok(_) => Response(true)
    case Err(e) => ErrorResponse(ErrorInfo(Some(FormBuilderErrorCode), e.message, e.data))
  }

  /** The `upgrade` mutation: true on success; a failure is passed on with its own code. */
  function UpgradeResolver(outcome: Result<bool, Error>): (r: BooleanResponse)
    ensures r.Response? <==> outcome.Ok?
    ensures r.Response? ==> r.data
    ensures outcome.Err? ==> r.error == EnvelopeOf(outcome.error)
  {
    match outcome
    case Ok(_) => Response(true)
    case Err(e) => ErrorResponse(EnvelopeOf(e))
  }

  /** The install resolver hides which check failed; the upgrade resolver keeps the code of each error. */
  lemma ResolversDifferOnCodes(e: Error)
    requires e.code != Some(FormBuilderErrorCode)
    ensures InstallResolver(Err(e)).error.code != UpgradeResolver(Err(e)).error.code
  {
  }

  /** What an `install` call settles with, in terms of the dispatch it would make. */
  function Settled(outcome: Result<Dispatch, Error>): (r: Result<(), Error>)
    ensures r.Ok? <==> outcome.Ok?
    ensures r.Err? ==> r.error == outcome.error
  {
    if outcome.Ok? then Ok(()) else Err(outcome.error)
  }

  /** A caller asking to install while an installation is pending is told so, under FORM_BUILDER_ERROR. */
  lemma InstallMutationWhilePending(s: System, ctx: Context, domain: Option<string>)
    requires s.installation.Some? && s.installation.value.status == Some(Pending)
    ensures InstallResolver(Settled(InstallOutcome(Ok(Some(s)), ctx, domain)))
         == ErrorResponse(ErrorInfo(Some(FormBuilderErrorCode), InstallInProgress.message, None))
  {
    InstallRejectsPending(s, ctx, domain);
  }

  /** A caller without an identity gets the security package's code back from the upgrade mutation. */
  lemma UpgradeMutationWithoutIdentity(ctx: Context, read: Result<Option<System>, Error>,
                                       select: UpgradeQuery -> Option<Plugin>, version: string,
                                       writeFault: Option<Error>)
    requires ctx.identity.None?
    ensures UpgradeResolver(UpgradeOutcome(ctx, read, select, version, writeFault)).error.code
         == Some("SECURITY_NOT_AUTHORIZED")
  {
  }

  // ---------------------------------------------------------------------------
  // The `system` query

  /**
   * What the `system` field resolves to: a record (None is GraphQL null), a caught
   * error, or a rejection that no resolver code caught and that GraphQL reports as a
   * top-level error. `FbSystem` has no `error` field, so a caught `ErrorResponse`
   * reaches the client as an `FbSystem` whose `version` and `installation` are null;
   * `Caught` keeps the envelope the resolver builds.
   */
  datatype SystemQueryResult = Resolved(system: Option<System>) | Caught(error: ErrorInfo) | Uncaught(rejection: Error)

  /**
   * The `system` resolver as written: it returns the promise of `get()` without
   * awaiting it, so a rejected read is never seen by its `catch`.
   */
  function SystemResolverAsWritten(currentTenant: Option<string>, contentLocale: Option<string>,
                                   read: Result<Option<System>, Error>): (r: SystemQueryResult)
    ensures currentTenant.None? || contentLocale.None? ==> r == Resolved(None)
    ensures currentTenant.Some? && contentLocale.Some? && read.Ok? ==> r == Resolved(read.value)
    ensures currentTenant.Some? && contentLocale.Some? && read.Err? ==> r == Uncaught(read.error)
  {
    if currentTenant.None? || contentLocale.None? then Resolved(None)
    else
      match read
      case Ok(system) => Resolved(system)
      case Err(e) => Uncaught(e)
  }

  /**
   * The `system` resolver as its `catch` intends: null without a tenant or a locale,
   * otherwise the stored record, and a failed read as a FORM_BUILDER_ERROR envelope.
   */
  function SystemResolver(currentTenant: Option<string>, contentLocale: Option<string>,
                          read: Result<Option<System>, Error>): (r: SystemQueryResult)
    ensures currentTenant.None? || contentLocale.None? ==> r == Resolved(None)
    ensures currentTenant.Some? && contentLocale.Some? && read.Ok? ==> r == Resolved(read.value)
    ensures currentTenant.Some? && contentLocale.Some? && read.Err?
            ==> r == Caught(ErrorInfo(Some(FormBuilderErrorCode), read.error.message, read.error.data))
    ensures !r.Uncaught?
  {
    if currentTenant.None? || contentLocale.None? then Resolved(None)
    else
      match read
      case Ok(system) => Resolved(system)
      case Err(e) => Caught(ErrorInfo(Some(FormBuilderErrorCode), e.message, e.data))
  }

  /** Without a tenant or a locale the query answers null whatever the store would say. */
  lemma SystemQueryIgnoresStoreWithoutScope(currentTenant: Option<string>, contentLocale: Option<string>,
                                            read1: Result<Option<System>, Error>,
                                            read2: Result<Option<System>, Error>)
    requires currentTenant.None? || contentLocale.None?
    ensures SystemResolver(currentTenant, contentLocale, read1) == SystemResolver(currentTenant, contentLocale, read2)
    ensures SystemResolverAsWritten(currentTenant, contentLocale, read1) == SystemResolver(currentTenant, contentLocale, read2)
  {
  }

  /** With a tenant and a locale, the query answers the record stored under the tenant's key, or null. */
  lemma SystemQueryReturnsStored(currentTenant: Option<string>, contentLocale: Option<string>,
                                 records: map<Key, System>, tenant: Option<string>)
    requires currentTenant.Some? && contentLocale.Some?
    ensures SystemResolver(currentTenant, contentLocale, Read(records, Keys(tenant), None))
         == Resolved(if Keys(tenant) in records then Some(records[Keys(tenant)]) else None)
  {
  }

  /** The two resolvers agree except on a failed read, which the one as written lets escape. */
  lemma SystemResolverAsWrittenEscapes(currentTenant: Option<string>, contentLocale: Option<string>,
                                       read: Result<Option<System>, Error>)
    ensures SystemResolverAsWritten(currentTenant, contentLocale, read) != SystemResolver(currentTenant, contentLocale, read)
        <==> currentTenant.Some? && contentLocale.Some? && read.Err?
  {
  }
}
