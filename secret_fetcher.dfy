/**
 * The secret fetcher (`get_active_creds`): look up the per-profile secret
 * in the secrets store and rename its provider fields into the names the
 * reconciler takes as keyword arguments.
 */
module SecretFetcher {
  import opened Wrappers
  import StatusLine

  /** A decoded SecretString: field name to (string) value. */
  type Record = map<string, string>

  const UserNameField: string := "UserName"
  const AccessKeyIdField: string := "AccessKeyId"
  const SecretAccessKeyField: string := "SecretAccessKey"
  const CreateDateField: string := "CreateDate"
  const StatusField: string := "Status"

  const ProfileNameKey: string := "profile_name"
  const KeyIdKey: string := "aws_access_key_id"
  const SecretKeyKey: string := "aws_secret_access_key"

  /** The provider fields in the order `get_active_creds` reads them; the first one absent raises KeyError. */
  const RawFields: seq<string> := [UserNameField, AccessKeyIdField, SecretAccessKeyField, CreateDateField, StatusField]

  /** The same fields as a set. */
  const ProviderFields: set<string> := {UserNameField, AccessKeyIdField, SecretAccessKeyField, CreateDateField, StatusField}

  /** The keys the rename puts in place of the first three provider fields. */
  const RenamedKeys: set<string> := {ProfileNameKey, KeyIdKey, SecretKeyKey}

  const SecretIdPrefix: string := "User_"
  const SecretIdSuffix: string := "_AccessKey"

  /** The identifier of the secret that holds a profile's current key pair. */
  function SecretId(profile: string): string
  {
    SecretIdPrefix + profile + SecretIdSuffix
  }

  /** The profile a secret identifier names, if it follows the naming convention. */
  function ProfileOfSecretId(id: string): Option<string>
  {
    if |id| >= |SecretIdPrefix| + |SecretIdSuffix|
       && id[..|SecretIdPrefix|] == SecretIdPrefix
       && id[|id| - |SecretIdSuffix|..] == SecretIdSuffix
    then Some(id[|SecretIdPrefix|..|id| - |SecretIdSuffix|])
    else None
  }

  /** The naming convention can be read back: an identifier names `profile` exactly when it is `SecretId(profile)`. */
  lemma SecretIdRoundTrip(profile: string, id: string)
    ensures ProfileOfSecretId(SecretId(profile)) == Some(profile)
    ensures ProfileOfSecretId(id) == Some(profile) <==> id == SecretId(profile)
  {
  }

  /** Two profiles never share a secret. */
  lemma SecretIdInjective(p: string, q: string)
    requires SecretId(p) == SecretId(q)
    ensures p == q
  {
    SecretIdRoundTrip(p, SecretId(q));
    SecretIdRoundTrip(q, SecretId(q));
  }

  /**
   * What the secrets store answers: the profiles a session can be opened
   * for, and the secrets readable under them, by identifier.
   */
  datatype SecretsStore = SecretsStore(profiles: set<string>, secrets: map<string, Record>)

  /** The two errors `get_active_creds` catches (ProfileNotFound, ClientError). */
  datatype FetchError = ProfileNotFound | ClientError

  /** The normalised secret, with the creation date and status split off. */
  datatype Normalised = Normalised(secret: Record, created: string, status: string)

  /** How a fetch ends; `MissingField` is the KeyError `get_active_creds` does not catch. */
  datatype Fetch = Fetched(value: Normalised) | FetchFailed(error: FetchError) | MissingField(field: string)

  /** The index of the first of `fields` absent from `raw`. */
  function {:induction false} FirstAbsent(fields: seq<string>, raw: Record): (r: Option<nat>)
    ensures r.None? <==> forall i :: 0 <= i < |fields| ==> fields[i] in raw
    ensures r.Some? ==> r.value < |fields| && fields[r.value] !in raw
                        && forall i :: 0 <= i < r.value ==> fields[i] in raw
  {
    if fields == [] then None
    else if fields[0] !in raw then Some(0)
    else match FirstAbsent(fields[1..], raw)
      case None => None
      case Some(k) => Some(k + 1)
  }

  /** The record holds every provider field. */
  predicate HasProviderFields(raw: Record)
  {
    ProviderFields <= raw.Keys
  }

  lemma FirstAbsentProviderField(raw: Record)
    ensures FirstAbsent(RawFields, raw).None? <==> HasProviderFields(raw)
  {
    assert RawFields[0] == UserNameField && RawFields[1] == AccessKeyIdField && RawFields[2] == SecretAccessKeyField;
    assert RawFields[3] == CreateDateField && RawFields[4] == StatusField;
  }

  /** The record after the renaming: provider names replaced, date and status removed, everything else kept. */
  function Renamed(raw: Record): Record
    requires HasProviderFields(raw)
  {
    (raw - ProviderFields)
    + map[ProfileNameKey := raw[UserNameField],
          KeyIdKey := raw[AccessKeyIdField],
          SecretKeyKey := raw[SecretAccessKeyField]]
  }

  /** The normalised secret, or the first provider field the record lacks. */
  function Normalise(raw: Record): Result<Normalised, string>
  {
    FirstAbsentProviderField(raw);
    match FirstAbsent(RawFields, raw)
    case Some(k) => Failure(RawFields[k])
    case None => Success(Normalised(Renamed(raw), raw[CreateDateField], raw[StatusField]))
  }

  /** The answer `get_active_creds(profile)` gets from the store, normalised. */
  function ActiveCreds(store: SecretsStore, profile: string): Fetch
  {
    if profile !in store.profiles then FetchFailed(ProfileNotFound)
    else if SecretId(profile) !in store.secrets then FetchFailed(ClientError)
    else match Normalise(store.secrets[SecretId(profile)])
      case Failure(field) => MissingField(field)
      case Success(n) => Fetched(n)
  }

  /**
   * The renaming maps UserName, AccessKeyId and SecretAccessKey onto
   * profile_name, aws_access_key_id and aws_secret_access_key, hands back
   * CreateDate and Status separately, and keeps every other field as it was.
   */
  lemma NormaliseRenames(raw: Record)
    requires HasProviderFields(raw)
    ensures Normalise(raw).Success?
    ensures var n := Normalise(raw).value;
            && n.secret[ProfileNameKey] == raw[UserNameField]
            && n.secret[KeyIdKey] == raw[AccessKeyIdField]
            && n.secret[SecretKeyKey] == raw[SecretAccessKeyField]
            && n.created == raw[CreateDateField] && n.status == raw[StatusField]
            && ProviderFields !! n.secret.Keys
            && n.secret.Keys == (raw.Keys - ProviderFields) + RenamedKeys
            && (forall k :: k in raw && k !in RenamedKeys && k !in ProviderFields ==> n.secret[k] == raw[k])
  {
  }

  /** A record lacking a provider field is not normalised: the first one absent is reported. */
  lemma NormaliseReportsFirstMissing(raw: Record, k: nat)
    requires k < |RawFields| && RawFields[k] !in raw
    requires forall i :: 0 <= i < k ==> RawFields[i] in raw
    ensures Normalise(raw) == Failure(RawFields[k])
  {
  }

  /**
   * `get_active_creds`: open a session for the profile, fetch its secret,
   * and rebuild the record in place with `pop` and `del`. `line` is the
   * status line printed on a caught error.
   */
  method GetActiveCreds(store: SecretsStore, profile: string, script: StatusLine.Script, clock: string)
    returns (r: Fetch, line: Option<string>)
    ensures r == ActiveCreds(store, profile)
    ensures line == match r
                    case FetchFailed(ProfileNotFound) => Some(StatusLine.Line(script, StatusLine.ProfileNotStored, clock, profile))
                    case FetchFailed(ClientError) => Some(StatusLine.Line(script, StatusLine.SecretInvalid, clock, profile))
                    case _ => None
  {
    line := None;
    if profile !in store.profiles {
      r := FetchFailed(ProfileNotFound);
      line := Some(StatusLine.Line(script, StatusLine.ProfileNotStored, clock, profile));
      return;
    }
    var id := SecretId(profile);
    if id !in store.secrets {
      r := FetchFailed(ClientError);
      line := Some(StatusLine.Line(script, StatusLine.SecretInvalid, clock, profile));
      return;
    }
    var raw := store.secrets[id];
    var secret := raw;
    if UserNameField !in secret {
      NormaliseReportsFirstMissing(raw, 0);
      r := MissingField(UserNameField);
      return;
    }
    var v := secret[UserNameField];
    secret := (secret - {UserNameField})[ProfileNameKey := v];
    if AccessKeyIdField !in secret {
      NormaliseReportsFirstMissing(raw, 1);
      r := MissingField(AccessKeyIdField);
      return;
    }
    v := secret[AccessKeyIdField];
    secret := (secret - {AccessKeyIdField})[KeyIdKey := v];
    if SecretAccessKeyField !in secret {
      NormaliseReportsFirstMissing(raw, 2);
      r := MissingField(SecretAccessKeyField);
      return;
    }
    v := secret[SecretAccessKeyField];
    secret := (secret - {SecretAccessKeyField})[SecretKeyKey := v];
    if CreateDateField !in secret {
      NormaliseReportsFirstMissing(raw, 3);
      r := MissingField(CreateDateField);
      return;
    }
    if StatusField !in secret {
      NormaliseReportsFirstMissing(raw, 4);
      r := MissingField(StatusField);
      return;
    }
    var created, status := secret[CreateDateField], secret[StatusField];
    secret := secret - {CreateDateField};
    secret := secret - {StatusField};
    FirstAbsentProviderField(raw);
    assert secret.Keys == Renamed(raw).Keys;
    assert secret == Renamed(raw);
    r := Fetched(Normalised(secret, created, status));
  }
}
