# Access-key rotation: a verified model

The two scripts `s3-upload-info/rotate_upload_access_keys.py` and
`s3-upload-info/rotate_upload_access_keyss.py` sync one local AWS
credentials profile with the key pair held in AWS Secrets Manager. For a
profile name they open a session for that profile, fetch the secret
`User_<profile>_AccessKey`, rename its provider fields, and hand the result
to a reconciler. The reconciler reads `~/.aws/credentials`, compares the
stored `aws_access_key_id` of the section with the incoming one, and writes
the new pair only when they differ. Every handled path prints one
timestamped status line. The two scripts match line for line. They differ
only in the wording of the five status messages (lines 22, 28, 30, 45 and
47), so one model serves both, with the script as a parameter
(`StatusLine.Script`).

Modules, one per component:

- `Wrappers` (wrappers.dfy): `Option` and `Result`.
- `IniTable` (ini_table.dfy): the credentials file as RawConfigParser with
  `allow_no_value=True` sees it. A table maps section names to sections,
  and a section maps option names to `Option<string>`. There are two
  classes. `ConfigParser` holds the `sections` table that `read`, `get` and
  `set` work on. `Disk` holds the files, which outlive a run, plus a ghost
  log of every path opened for writing.
- `Reconciler` (reconciler.dfy): `update_local_creds`. The method
  `UpdateLocalCreds` works step by step on a fresh `ConfigParser` and the
  `Disk`. It is proved against the function `ReconcileEffect`, and the
  lemmas state the idempotence rule, read-back, the frame and the error
  cases about that function.
- `SecretFetcher` (secret_fetcher.dfy): `get_active_creds`. It covers the
  secret identifier and its inverse, and a declarative renaming
  (`Normalise`). The method `GetActiveCreds` rebuilds the record in place
  with `pop`/`del` style updates and is proved equal to that renaming.
- `StatusLine` (status_line.dfy): `get_timestamp`. It also models how
  Python's `print` joins its arguments, and the message arguments of each
  script.
- `Rotation` (rotation.dfy): `main`. This covers how `**secret` is bound to
  the reconciler's parameters, and the run as a whole (`Run`).

Outcomes. A reconcile reports `NoChange`, `Rotated` or `Error`. A run ends
in one of three ways:

- `Stopped(ProfileNotFound | ClientError)`: the fetch failed and the
  reconciler never ran.
- `Crashed(KeyError(field) | TypeError)`: an exception the scripts do not
  catch.
- `Reconciled(status)`.

The no-change exit is a `SystemExit`. The reconciler's `except Exception`
does not catch it, so `NoChange` never turns into `Error`.

In these details the scripts behave in ways their wording does not
suggest; the model follows the code:

- A line printed by `rotate_upload_access_keyss.py` starts with a newline
  and a space before the bracketed timestamp, not with the timestamp
  (`StatusLine.KeyssLineBeginsWithStamp`).
- `config.read` silently skips a missing or unreadable file. Such a file
  therefore ends in `Error` only because the section is then missing. Only
  a file that does not parse makes `read` itself fail.
- The write is not all-or-nothing. `open(path, 'w+')` truncates the file
  before `config.write` runs, so a write that breaks off can leave a
  damaged file (`WriteEnv.FailsAfterTruncate`; see
  `Reconciler.WritesOnlyOnChange`).
- The key's `Status` is returned and then dropped. An inactive key is
  propagated like an active one (`Rotation.StatusIsIgnored`).
- The reconciled section is the secret's `UserName`, not the profile named
  on the command line (`Rotation.ReconcileTargetsUserName`). A secret that
  carries an `aws_credentials_file` field redirects both the read and the
  write to that path.
  Any other extra field makes the call raise `TypeError`.

## Model

| member | source | states |
|---|---|---|
| `IniTable.LookupAfterAssigned` | s3-upload-info/rotate_upload_access_keys.py:21-24 | after `set`, `get` of that option returns the value just set; every other section/option reads as before |
| `IniTable.Merged` | s3-upload-info/rotate_upload_access_keys.py:20 | reading a file into a parser yields the union of sections; sections only in one side keep their options |
| `IniTable.ConfigParser.Read` | s3-upload-info/rotate_upload_access_keys.py:18-20 | `read` fails exactly on a file that does not parse; otherwise the parser holds the merge of its sections with the file's (nothing for a missing or unreadable file) |
| `IniTable.ConfigParser.Get` | s3-upload-info/rotate_upload_access_keys.py:21 | `get` succeeds iff the section and option exist and then returns the stored optional value; otherwise NoSectionError or NoOptionError |
| `IniTable.ConfigParser.Set` | s3-upload-info/rotate_upload_access_keys.py:23-24 | `set` on an existing section replaces that one option; on a missing section it raises NoSectionError and changes nothing |
| `IniTable.Disk.Persist` | s3-upload-info/rotate_upload_access_keys.py:25-26 | the write succeeds and stores the table, or the open fails and nothing changes, or the truncated file is left as the environment leaves it; the path is logged as opened unless the open failed |
| `Reconciler.UpdateLocalCreds` | s3-upload-info/rotate_upload_access_keys.py:14-30 | status, new disk and write log are those of `ReconcileEffect` on the old disk; the printed line is the script's message for that status |
| `Reconciler.NoChangeIffCurrent` | s3-upload-info/rotate_upload_access_keys.py:21-22 | the outcome is NoChange iff the file parses and the section's stored `aws_access_key_id` equals the incoming key; then nothing is written |
| `Reconciler.MissingKeyIsError` | s3-upload-info/rotate_upload_access_keys.py:20-28 | a file that does not parse, a missing section or a missing `aws_access_key_id` gives Error with no write |
| `Reconciler.RotationReadsBack` | s3-upload-info/rotate_upload_access_keys.py:23-30 | after Rotated the file parses and `get` returns exactly the incoming key id and secret key |
| `Reconciler.RotationFrame` | s3-upload-info/rotate_upload_access_keys.py:23-26 | a rotation keeps the set of sections and every option other than the two key options of that section, and no other file changes |
| `Reconciler.DifferingKeyIsRotated` | s3-upload-info/rotate_upload_access_keys.py:18-26 | when the stored key id differs from the incoming one: Rotated exactly when the write succeeds, the file is opened exactly when `open` does not fail, and a successful write leaves the table with both options set to the new pair |
| `Reconciler.ValuelessKeyIsRotated` | s3-upload-info/rotate_upload_access_keys.py:18-24 | a stored option with no value never matches: never NoChange, and Rotated exactly when the write succeeds |
| `Reconciler.WritesOnlyOnChange` | s3-upload-info/rotate_upload_access_keyss.py:21-28 | the file is opened for writing only when the lookup succeeded and the stored key differs; an Error that leaves a written file comes only from a write that broke off after truncation |
| `Reconciler.ReconcileIdempotent` | s3-upload-info/rotate_upload_access_keys.py:21-26 | after a NoChange or Rotated run, a second run with the same pair is NoChange, writes nothing and keeps the disk, for any write environment |
| `SecretFetcher.SecretIdRoundTrip` | s3-upload-info/rotate_upload_access_keys.py:37 | the profile can be read back from `User_<profile>_AccessKey`, and an identifier names a profile exactly when it is that profile's identifier |
| `SecretFetcher.SecretIdInjective` | s3-upload-info/rotate_upload_access_keyss.py:37 | two different profiles never share a secret identifier |
| `SecretFetcher.FirstAbsent` | s3-upload-info/rotate_upload_access_keys.py:39-42 | the result is the index of the first field the record lacks, every earlier field being present, or none when all are present |
| `SecretFetcher.NormaliseRenames` | s3-upload-info/rotate_upload_access_keys.py:39-43 | UserName/AccessKeyId/SecretAccessKey become profile_name/aws_access_key_id/aws_secret_access_key; CreateDate and Status are returned apart and no provider field remains; every other field is kept |
| `SecretFetcher.NormaliseReportsFirstMissing` | s3-upload-info/rotate_upload_access_keyss.py:39-42 | a record lacking a provider field fails with the first absent one in the order `get_active_creds` reads them (its KeyError) |
| `SecretFetcher.GetActiveCreds` | s3-upload-info/rotate_upload_access_keys.py:33-49 | the in-place rebuild of the record equals `ActiveCreds`: ProfileNotFound, ClientError, the first missing field, or the normalised secret; a line is printed exactly for the two caught errors |
| `Rotation.Run` | s3-upload-info/rotate_upload_access_keys.py:52-54 | a run that stops or crashes before the reconciler leaves the disk and write log unchanged; a stopped run prints the ProfileNotFound or ClientError line for the profile, a crashed one prints nothing; otherwise outcome and disk are the reconcile effect of the bound call, and the line names the secret's user |
| `Rotation.FetchFailureStopsRun` | s3-upload-info/rotate_upload_access_keys.py:44-54 | a missing profile stops the run with ProfileNotFound, a missing secret with ClientError, before any reconcile |
| `Rotation.ReconcileTargetsUserName` | s3-upload-info/rotate_upload_access_keyss.py:52-54 | a reconcile call is made for the secret's UserName with its AccessKeyId and SecretAccessKey, on the path the secret names or else the default |
| `Rotation.InvocationReachesReconcile` | s3-upload-info/rotate_upload_access_keys.py:35-54 | the reconciler is reached iff the profile has a session, its secret exists, holds every provider field and no field the call rejects |
| `Rotation.StatusIsIgnored` | s3-upload-info/rotate_upload_access_keys.py:42-54 | changing the secret's Status or CreateDate does not change what the run does |
| `StatusLine.Timestamp` | s3-upload-info/rotate_upload_access_keys.py:10-11 | the timestamp is a prefix of the clock string, contains no '.', and ends where the clock string ends or at its first '.' |
| `StatusLine.TimestampOfUtcClock` | s3-upload-info/rotate_upload_access_keys.py:11 | on a "YYYY-MM-DD HH:MM:SS[.ffffff]" clock string the timestamp is its first 19 characters, with no fraction |
| `StatusLine.KeysMessageQuotesProfile` | s3-upload-info/rotate_upload_access_keys.py:22-47 | each message of the first script has an argument holding the quoted profile name |
| `StatusLine.KeyssMessageQuotesProfile` | s3-upload-info/rotate_upload_access_keyss.py:22-47 | each message of the second script has an argument holding the quoted profile name |
| `StatusLine.LineQuotesProfile` | s3-upload-info/rotate_upload_access_keyss.py:22-47 | every printed status line, in either script, contains the profile name in double quotes |
| `StatusLine.KeysLineBeginsWithStamp` | s3-upload-info/rotate_upload_access_keys.py:22-47 | a line of the first script is "[timestamp] " followed by the rest of the message and a newline |
| `StatusLine.KeyssLineBeginsWithStamp` | s3-upload-info/rotate_upload_access_keyss.py:22-47 | a line of the second script is a newline, a space, "[timestamp] ", the rest of the message and a newline |
| `StatusLine.KeysReconcileLinesDiffer` | s3-upload-info/rotate_upload_access_keys.py:22-30 | in the first script NoChange, Rotated and Error print pairwise different lines |
| `StatusLine.KeyssReconcileLinesDiffer` | s3-upload-info/rotate_upload_access_keyss.py:22-30 | in the second script NoChange, Rotated and Error print pairwise different lines |

## Left out

- The boto3 session, the Secrets Manager client and `get_secret_value` (network, foreign library). They are replaced by a given `SecretsStore`: the profiles a session opens for, and the secrets readable by identifier. An error response from the service (access denied, a missing secret) is one `ClientError`. Other botocore failures (`NoCredentialsError` for a profile without keys, `EndpointConnectionError`, parameter-validation errors) are not caught by the scripts and end the run in a traceback with no status line; the model has no outcome for them. The `region_name` default is not modelled. `Session(profile_name=...)` looks the profile and its signing keys up in the shared AWS config and credentials files, which with the default path is the same `~/.aws/credentials` the reconciler rewrites; so ProfileNotFound, or a ClientError caused by an expired local key, depends on that file in the scripts, while the model's `SecretsStore` is independent of the `Disk`. No proved property relies on that independence.
- JSON decoding of `SecretString`, and a response without `SecretString`. The model starts from an already decoded record whose values are all strings. Non-string JSON values are not modelled.
- INI text parsing and serialisation. A file is a `FileContent`: a table, a file that does not parse, or one that cannot be opened. A successful write is taken to store exactly the table, so formatting, comments and `optionxform` lower-casing are not modelled. Nor is the change of values on the way back: RawConfigParser strips surrounding whitespace from a value it reads, and a trailing newline is lost, so in the scripts `Reconciler.RotationReadsBack` and `Reconciler.ReconcileIdempotent` hold only for a key id and secret key equal to their stripped form; for other values the next run rotates again instead of reporting NoChange.
- `IniTable.ConfigParser.Get`: does not model the DEFAULT-section fallback or the special handling of a section named `DEFAULT`; the model treats DEFAULT as an ordinary section.
- `IniTable.ConfigParser.Read`: on a parse failure the parser's partly read contents are left unspecified, because the reconciler discards them.
- What a broken-off write leaves in the file is an input (`FailsAfterTruncate(left)`), not derived from the table.
- `datetime.utcnow()` and the clock: the clock string is an input to `Timestamp`.
- Output and process exit. `print` is modelled as the returned status line. `sys.exit`, exit codes and `argparse` are not modelled, and neither is the traceback of an uncaught exception.
- The TypeError for an unknown keyword argument does not record which keyword was rejected.
- Concurrent runs, or other writers on the credentials file: nothing in the scripts coordinates them.
