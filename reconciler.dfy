/**
 * The local reconciler (`update_local_creds`): bring the section named
 * after a profile in the local credentials file in line with the key pair
 * fetched from the secrets store, writing only when the stored key id
 * differs from the incoming one.
 */
module Reconciler {
  import opened Wrappers
  import opened IniTable
  import StatusLine

  const KeyIdOption: string := "aws_access_key_id"
  const SecretKeyOption: string := "aws_secret_access_key"

  /** The three outcomes a reconcile reports. */
  datatype Status = NoChange | Rotated | Error

  /**
   * What one reconcile does: the outcome it reports and, when it opened the
   * file for writing, what the file holds afterwards (`None`: not opened).
   */
  datatype Effect = Effect(status: Status, written: Option<FileContent>)

  /** The table with both key options of `profile` set, as the two `set` calls leave it. */
  function WithKeys(t: Table, profile: string, keyId: string, secretKey: string): Table
    requires profile in t
  {
    Assigned(Assigned(t, profile, KeyIdOption, Some(keyId)), profile, SecretKeyOption, Some(secretKey))
  }

  /** What reconciling `profile` against the file at `path` does, when a write goes as `env` says. */
  function ReconcileEffect(files: FileSystem, path: string, profile: string, keyId: string, secretKey: string,
                           env: WriteEnv): Effect
  {
    if !Parses(files, path) then Effect(Error, None)
    else
      var t := Loaded(files, path);
      match Lookup(t, profile, KeyIdOption)
      case Failure(_) => Effect(Error, None)
      case Success(stored) =>
        if stored == Some(keyId) then Effect(NoChange, None)
        else match env
          case WriteSucceeds => Effect(Rotated, Some(Ini(WithKeys(t, profile, keyId, secretKey))))
          case OpenFails => Effect(Error, None)
          case FailsAfterTruncate(left) => Effect(Error, Some(left))
  }

  /** The disk after an effect. */
  function Apply(files: FileSystem, path: string, e: Effect): FileSystem
  {
    if e.written.Some? then files[path := e.written.value] else files
  }

  function EventOf(status: Status): StatusLine.Event
  {
    match status
    case NoChange => StatusLine.CredentialsCurrent
    case Rotated => StatusLine.KeysRotated
    case Error => StatusLine.LocalCredentialsExpired
  }

  /**
   * `update_local_creds`: read the file into a fresh parser, compare the
   * stored key id, set both options and write the whole table back.
   * `line` is the status line printed with the clock reading `clock`.
   */
  method UpdateLocalCreds(disk: Disk, profile: string, keyId: string, secretKey: string, path: string,
                          env: WriteEnv, script: StatusLine.Script, clock: string)
    returns (status: Status, line: string)
    modifies disk
    ensures var e := ReconcileEffect(old(disk.files), path, profile, keyId, secretKey, env);
            && status == e.status
            && disk.files == Apply(old(disk.files), path, e)
            && disk.writeLog == old(disk.writeLog) + (if e.written.Some? then [path] else [])
    ensures line == StatusLine.Line(script, EventOf(status), clock, profile)
  {
    var config := new ConfigParser();
    var parsed := config.Read(disk, path);
    if !parsed {
      status := Error;
    } else {
      assert config.sections == Loaded(disk.files, path);
      var stored := config.Get(profile, KeyIdOption);
      if stored.Failure? {
        status := Error;
      } else if stored.value == Some(keyId) {
        // `update_local_creds` leaves here through sys.exit: SystemExit is no
        // Exception, so the handler below never turns this into an error.
        status := NoChange;
      } else {
        var _ := config.Set(profile, KeyIdOption, Some(keyId));
        var _ := config.Set(profile, SecretKeyOption, Some(secretKey));
        var ok := disk.Persist(path, config.sections, env);
        status := if ok then Rotated else Error;
      }
    }
    line := StatusLine.Line(script, EventOf(status), clock, profile);
  }

  /** The stored key id equals the incoming one exactly when the outcome is NoChange; then nothing is written. */
  lemma NoChangeIffCurrent(files: FileSystem, path: string, profile: string, keyId: string, secretKey: string,
                           env: WriteEnv)
    ensures var e := ReconcileEffect(files, path, profile, keyId, secretKey, env);
            (e.status == NoChange <==> Parses(files, path) && Lookup(Loaded(files, path), profile, KeyIdOption) == Success(Some(keyId)))
            && (e.status == NoChange ==> e.written == None)
  {
  }

  /** A file that does not parse, or lacks the section or its key id option, yields Error and is left alone. */
  lemma MissingKeyIsError(files: FileSystem, path: string, profile: string, keyId: string, secretKey: string,
                          env: WriteEnv)
    requires !Parses(files, path) || Lookup(Loaded(files, path), profile, KeyIdOption).Failure?
    ensures ReconcileEffect(files, path, profile, keyId, secretKey, env) == Effect(Error, None)
  {
  }

  /** After a rotation, reading the section back gives exactly the pair just written. */
  lemma RotationReadsBack(files: FileSystem, path: string, profile: string, keyId: string, secretKey: string,
                          env: WriteEnv)
    requires ReconcileEffect(files, path, profile, keyId, secretKey, env).status == Rotated
    ensures var after := Apply(files, path, ReconcileEffect(files, path, profile, keyId, secretKey, env));
            && Parses(after, path)
            && Lookup(Loaded(after, path), profile, KeyIdOption) == Success(Some(keyId))
            && Lookup(Loaded(after, path), profile, SecretKeyOption) == Success(Some(secretKey))
  {
  }

  /**
   * A rotation changes the two key options of that one section and nothing
   * else: every other section, every other option, and every other file.
   */
  lemma RotationFrame(files: FileSystem, path: string, profile: string, keyId: string, secretKey: string,
                      env: WriteEnv, s: string, o: string, p: string)
    requires ReconcileEffect(files, path, profile, keyId, secretKey, env).status == Rotated
    requires s != profile || (o != KeyIdOption && o != SecretKeyOption)
    ensures var after := Apply(files, path, ReconcileEffect(files, path, profile, keyId, secretKey, env));
            && Loaded(after, path).Keys == Loaded(files, path).Keys
            && Lookup(Loaded(after, path), s, o) == Lookup(Loaded(files, path), s, o)
            && (p != path ==> (p in after <==> p in files) && (p in files ==> after[p] == files[p]))
  {
  }

  /**
   * A stored key id that differs from the incoming one is rotated exactly
   * when the write succeeds; the file is opened unless `open` fails, and a
   * successful write leaves the table with the new pair.
   */
  lemma DifferingKeyIsRotated(files: FileSystem, path: string, profile: string, keyId: string, secretKey: string,
                              env: WriteEnv)
    requires Parses(files, path)
    requires Lookup(Loaded(files, path), profile, KeyIdOption).Success?
    requires Lookup(Loaded(files, path), profile, KeyIdOption) != Success(Some(keyId))
    ensures var e := ReconcileEffect(files, path, profile, keyId, secretKey, env);
            && (e.status == Rotated <==> env.WriteSucceeds?)
            && (e.written.Some? <==> !env.OpenFails?)
            && (env.WriteSucceeds? ==> profile in Loaded(files, path)
                                       && e.written == Some(Ini(WithKeys(Loaded(files, path), profile, keyId, secretKey))))
  {
  }

  /** An option stored without a value never matches, so it is always rewritten when the write succeeds. */
  lemma ValuelessKeyIsRotated(files: FileSystem, path: string, profile: string, keyId: string, secretKey: string,
                              env: WriteEnv)
    requires Parses(files, path) && Lookup(Loaded(files, path), profile, KeyIdOption) == Success(None)
    ensures var e := ReconcileEffect(files, path, profile, keyId, secretKey, env);
            e.status != NoChange && (env.WriteSucceeds? <==> e.status == Rotated)
  {
    DifferingKeyIsRotated(files, path, profile, keyId, secretKey, env);
  }

  /** The file is opened for writing only when the stored key differs, and is damaged only by a write that breaks off. */
  lemma WritesOnlyOnChange(files: FileSystem, path: string, profile: string, keyId: string, secretKey: string,
                           env: WriteEnv)
    ensures var e := ReconcileEffect(files, path, profile, keyId, secretKey, env);
            && (e.written.Some? ==> Parses(files, path)
                                    && Lookup(Loaded(files, path), profile, KeyIdOption).Success?
                                    && Lookup(Loaded(files, path), profile, KeyIdOption) != Success(Some(keyId)))
            && (e.written.Some? && e.status == Error ==> env.FailsAfterTruncate?)
  {
  }

  /**
   * Reconcile is idempotent: once a run has reported NoChange or Rotated,
   * a second run with the same pair reports NoChange, writes nothing and
   * leaves the disk as the first run left it, however a write would go.
   */
  lemma ReconcileIdempotent(files: FileSystem, path: string, profile: string, keyId: string,
                            secretKey: string, env: WriteEnv, env2: WriteEnv)
    requires ReconcileEffect(files, path, profile, keyId, secretKey, env).status != Error
    ensures var after := Apply(files, path, ReconcileEffect(files, path, profile, keyId, secretKey, env));
            ReconcileEffect(after, path, profile, keyId, secretKey, env2) == Effect(NoChange, None)
  {
  }
}
