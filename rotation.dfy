/**
 * One invocation (`main`): fetch the profile's secret, then pass the
 * normalised record as keyword arguments to the reconciler. A fetch that
 * fails ends the run before the local file is touched.
 */
module Rotation {
  import opened Wrappers
  import opened IniTable
  import opened SecretFetcher
  import opened Reconciler
  import StatusLine

  /** The parameter the reconciler takes besides the three the rename produces. */
  const PathParameter: string := "aws_credentials_file"

  /** The keyword arguments `update_local_creds` accepts. */
  const Parameters: set<string> := {ProfileNameKey, KeyIdKey, SecretKeyKey, PathParameter}

  /** The exceptions nothing catches: KeyError from the rename, TypeError from the call. */
  datatype Crash = KeyError(key: string) | TypeError

  /** How an invocation ends. */
  datatype RunOutcome = Stopped(error: FetchError) | Crashed(crash: Crash) | Reconciled(status: Status)

  /** The arguments `update_local_creds` is called with. */
  datatype Call = Call(profile: string, keyId: string, secretKey: string, path: string)

  /**
   * `update_local_creds(**kwargs)`: an unknown keyword or a missing one
   * raises TypeError; `aws_credentials_file` defaults to `defaultPath`.
   */
  function Bind(kwargs: Record, defaultPath: string): Result<Call, Crash>
  {
    if !(kwargs.Keys <= Parameters) || !({ProfileNameKey, KeyIdKey, SecretKeyKey} <= kwargs.Keys) then Failure(TypeError)
    else Success(Call(kwargs[ProfileNameKey], kwargs[KeyIdKey], kwargs[SecretKeyKey],
                      if PathParameter in kwargs then kwargs[PathParameter] else defaultPath))
  }

  /** The reconcile call an invocation for `profile` makes, or how it ends before making one. */
  function Invocation(store: SecretsStore, profile: string, defaultPath: string): Result<Call, RunOutcome>
  {
    match ActiveCreds(store, profile)
    case FetchFailed(e) => Failure(Stopped(e))
    case MissingField(f) => Failure(Crashed(KeyError(f)))
    case Fetched(n) =>
      match Bind(n.secret, defaultPath)
      case Failure(c) => Failure(Crashed(c))
      case Success(call) => Success(call)
  }

  /** The provider record an invocation for `profile` reads. */
  function RawSecret(store: SecretsStore, profile: string): Record
    requires profile in store.profiles && SecretId(profile) in store.secrets
  {
    store.secrets[SecretId(profile)]
  }

  /** The fields a provider record may hold without making the call raise TypeError. */
  const AllowedFields: set<string> := ProviderFields + Parameters

  /**
   * `main(profile)`: `env` says how a write of the credentials file goes,
   * `clock` is the clock reading used for the status line, `line` the line
   * printed, if any.
   */
  method Run(disk: Disk, store: SecretsStore, profile: string, defaultPath: string, env: WriteEnv,
             script: StatusLine.Script, clock: string)
    returns (outcome: RunOutcome, line: Option<string>)
    modifies disk
    ensures match Invocation(store, profile, defaultPath)
            case Failure(o) =>
              && outcome == o
              && disk.files == old(disk.files) && disk.writeLog == old(disk.writeLog)
              && (o.Stopped? <==> line.Some?)
              && (o.Stopped? ==> line == Some(StatusLine.Line(script, if o.error.ProfileNotFound? then StatusLine.ProfileNotStored
                                                                      else StatusLine.SecretInvalid, clock, profile)))
            case Success(call) =>
              var e := ReconcileEffect(old(disk.files), call.path, call.profile, call.keyId, call.secretKey, env);
              && outcome == Reconciled(e.status)
              && disk.files == Apply(old(disk.files), call.path, e)
              && disk.writeLog == old(disk.writeLog) + (if e.written.Some? then [call.path] else [])
              && line == Some(StatusLine.Line(script, EventOf(e.status), clock, call.profile))
  {
    var fetched;
    fetched, line := GetActiveCreds(store, profile, script, clock);
    match fetched {
      case FetchFailed(e) =>
        outcome := Stopped(e);
      case MissingField(f) =>
        outcome := Crashed(KeyError(f));
      case Fetched(n) =>
        var call := Bind(n.secret, defaultPath);
        if call.Failure? {
          outcome := Crashed(call.error);
        } else {
          var c := call.value;
          var status, printed := UpdateLocalCreds(disk, c.profile, c.keyId, c.secretKey, c.path, env, script, clock);
          outcome := Reconciled(status);
          line := Some(printed);
        }
    }
  }

  /** A fetch that fails stops the run: the reconciler is never called, so no file is read or written. */
  lemma FetchFailureStopsRun(store: SecretsStore, profile: string, defaultPath: string)
    requires profile !in store.profiles || SecretId(profile) !in store.secrets
    ensures Invocation(store, profile, defaultPath)
         == Failure(Stopped(if profile !in store.profiles then ProfileNotFound else ClientError))
  {
  }

  /**
   * When the reconciler is called, it is called for the secret's UserName
   * (not necessarily the profile named on the command line) with the
   * secret's key pair, and on the file the secret may name.
   */
  lemma ReconcileTargetsUserName(store: SecretsStore, profile: string, defaultPath: string)
    requires Invocation(store, profile, defaultPath).Success?
    ensures profile in store.profiles && SecretId(profile) in store.secrets
    ensures var raw := RawSecret(store, profile);
            var call := Invocation(store, profile, defaultPath).value;
            && HasProviderFields(raw)
            && call.profile == raw[UserNameField]
            && call.keyId == raw[AccessKeyIdField]
            && call.secretKey == raw[SecretAccessKeyField]
            && call.path == (if PathParameter in raw then raw[PathParameter] else defaultPath)
  {
    var raw := RawSecret(store, profile);
    FirstAbsentProviderField(raw);
    NormaliseRenames(raw);
  }

  /**
   * The reconciler is reached exactly when the session opens, the secret
   * exists, it holds every provider field and no field the call rejects.
   */
  lemma {:induction false} InvocationReachesReconcile(store: SecretsStore, profile: string, defaultPath: string)
    ensures Invocation(store, profile, defaultPath).Success?
        <==> && profile in store.profiles && SecretId(profile) in store.secrets
             && HasProviderFields(RawSecret(store, profile))
             && RawSecret(store, profile).Keys <= AllowedFields
  {
    if profile in store.profiles && SecretId(profile) in store.secrets {
      var raw := RawSecret(store, profile);
      FirstAbsentProviderField(raw);
      if HasProviderFields(raw) {
        NormaliseRenames(raw);
        var n := Normalise(raw).value;
        if raw.Keys <= AllowedFields {
          assert n.secret.Keys <= Parameters;
        } else {
          var k :| k in raw && k !in AllowedFields;
          assert k in n.secret;
        }
      }
    }
  }

  /**
   * The key's Status and CreateDate are split off and never looked at: an
   * inactive key is propagated like an active one.
   */
  lemma StatusIsIgnored(store: SecretsStore, profile: string, defaultPath: string, status: string, created: string)
    requires profile in store.profiles && SecretId(profile) in store.secrets
    requires HasProviderFields(RawSecret(store, profile))
    ensures var raw := RawSecret(store, profile);
            var store' := store.(secrets := store.secrets[SecretId(profile) := raw[StatusField := status][CreateDateField := created]]);
            Invocation(store', profile, defaultPath) == Invocation(store, profile, defaultPath)
  {
  }
}
