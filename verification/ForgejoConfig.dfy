/** The Forgejo OAuth client configuration: the administrator's record, which overrides the
    deployment's environment, and the rules by which a save keeps or clears the client secret. */
module ForgejoConfig {
  import opened Prelude

  /** A client secret; in the record it is present encrypted or not at all. */
  type Secret = Id

  datatype ClientType = Public | Confidential

  datatype Record = Record(
    enabled: bool, clientId: string, baseUrl: string, clientType: ClientType,
    secret: Option<Secret>, revision: Id)

  datatype SecretFile = NoFile | Unreadable | Holds(secret: Secret)

  /** What the deployment sets: its own OAuth client, if any, and which Forgejo servers it trusts. */
  datatype Environment = Environment(
    clientId: string, redirectUrl: string, secretFile: SecretFile,
    allowedBaseUrls: set<string>, allowInsecureHttp: bool, allowUnverifiedTls: bool)

  datatype Revision = Stored(id: Id) | FromEnvironment

  datatype ClientConfig = ClientConfig(
    clientId: string, redirectUrl: string, secret: Option<Secret>, revision: Revision)

  datatype ConfigError =
    | InvalidBaseUrl | InvalidClientId | InvalidSecret | PublicClientSecret | MissingSecret | SecretUnavailable

  const CALLBACK_PATH := "/api/me/credential/oauth/callback"

  function ReadSecret(file: SecretFile): Result<Option<Secret>, ConfigError> {
    match file
    case NoFile => Ok(None)
    case Unreadable => Err(SecretUnavailable)
    case Holds(s) => Ok(Some(s))
  }

  /** The configuration in force, if any. A disabled record overrides the environment. */
  function Resolve(record: Option<Record>, env: Environment): Result<Option<ClientConfig>, ConfigError> {
    match record
    case Some(r) =>
      if !r.enabled then Ok(None)
      else if r.clientType == Confidential && r.secret.None? then Err(SecretUnavailable)
      else Ok(Some(ClientConfig(r.clientId, r.baseUrl + CALLBACK_PATH,
                                if r.clientType == Confidential then r.secret else None, Stored(r.revision))))
    case None =>
      if env.clientId == "" || env.redirectUrl == "" then Ok(None)
      else
        match ReadSecret(env.secretFile)
        case Err(e) => Err(e)
        case Ok(s) => Ok(Some(ClientConfig(env.clientId, env.redirectUrl, s, FromEnvironment)))
  }

  /** Visible ASCII without spaces. */
  predicate Plain(s: string) {
    forall i | 0 <= i < |s| :: ' ' < s[i] < 127 as char
  }

  /** What the administrator submits: the client id stripped, the origin if the base URL is an
      acceptable one, and the secret field, empty to leave the secret as it is. */
  datatype Request = Request(
    enabled: bool, clientId: string, origin: Option<string>, clientType: ClientType,
    secret: Option<Secret>, secretWellFormed: bool)

  class ForgejoOAuthConfigService {
    var record: Option<Record>
    const env: Environment

    constructor (env: Environment)
      ensures record == None && this.env == env
    {
      record := None;
      this.env := env;
    }

    function CurrentId(): string
      reads this
    {
      if record.Some? then record.value.clientId else env.clientId
    }

    /** The stored secret that a save without a new one keeps: that of the same confidential client. */
    ghost function KeptSecret(req: Request): Option<Secret>
      reads this
    {
      if record.Some? && req.clientType == Confidential && CurrentId() == req.clientId
      then record.value.secret else None
    }

    /** The environment's secret file serves the first enabling save that names the same client. */
    predicate TakesEnvironmentSecret(req: Request)
      reads this
    {
      req.clientType == Confidential && req.enabled && req.secret.None? && record.None? &&
      CurrentId() == req.clientId && env.secretFile != NoFile
    }

    /** Overwrites the record under a fresh revision, or changes nothing and says why. A stored secret
        survives only a save for the same confidential client, so it never reaches another client; an
        enabled confidential client always has a secret, a public one never. */
    method Save(req: Request, revision: Id) returns (result: Result<Record, ConfigError>)
      modifies this`record
      ensures result.Err? ==> record == old(record)
      ensures result.Ok? ==>
                record == Some(result.value) && result.value.revision == revision && req.origin.Some? &&
                result.value == Record(req.enabled, req.clientId, req.origin.value, req.clientType,
                                       result.value.secret, revision) &&
                (if req.secret.Some? then result.value.secret == req.secret
                 else if old(TakesEnvironmentSecret(req)) then ReadSecret(env.secretFile) == Ok(result.value.secret)
                 else result.value.secret == old(KeptSecret(req)))
      ensures result.Ok? ==> Usable(result.value)
      ensures result.Ok? <==>
                req.origin.Some? && (req.enabled ==> req.clientId != "") &&
                (forall i | 0 <= i < |req.clientId| :: ' ' < req.clientId[i] < 127 as char) &&
                req.secretWellFormed && (req.secret.Some? ==> req.clientId != "" && req.clientType == Confidential) &&
                (old(TakesEnvironmentSecret(req)) ==> env.secretFile != Unreadable) &&
                (req.clientType == Confidential && req.enabled ==>
                   req.secret.Some? || old(TakesEnvironmentSecret(req)) || old(KeptSecret(req)).Some?)
      ensures result.Err? ==>
                match result.error
                case InvalidBaseUrl => req.origin.None?
                case InvalidClientId =>
                  (req.clientId == "" && (req.enabled || req.secret.Some?)) ||
                  exists i :: 0 <= i < |req.clientId| && !(' ' < req.clientId[i] < 127 as char)
                case InvalidSecret => !req.secretWellFormed
                case PublicClientSecret => req.clientType == Public && req.secret.Some?
                case SecretUnavailable => old(TakesEnvironmentSecret(req)) && env.secretFile == Unreadable
                case MissingSecret =>
                  req.clientType == Confidential && req.enabled && req.secret.None? && old(KeptSecret(req)).None?
    {
      if req.origin.None? { return Err(InvalidBaseUrl); }
      if (req.enabled && req.clientId == "") || (req.clientId != "" && !Plain(req.clientId)) {
        return Err(InvalidClientId);
      }
      if !req.secretWellFormed { return Err(InvalidSecret); }
      var secret := req.secret;
      if secret.Some? && req.clientId == "" { return Err(InvalidClientId); }
      if req.clientType == Public && secret.Some? { return Err(PublicClientSecret); }
      var currentId := if record.Some? then record.value.clientId else env.clientId;
      if req.clientType == Confidential && req.enabled && secret.None? && record.None? &&
         currentId == req.clientId && env.secretFile != NoFile
      {
        if env.secretFile == Unreadable { return Err(SecretUnavailable); }
        secret := Some(env.secretFile.secret);
      }
      if req.clientType == Confidential && req.enabled && secret.None? &&
         (record.None? || record.value.secret.None? || currentId != req.clientId)
      {
        return Err(MissingSecret);
      }
      var stored := if record.Some? then record.value.secret else None;
      if req.clientType == Public || currentId != req.clientId { stored := None; }
      if secret.Some? { stored := secret; }
      var row := Record(req.enabled, req.clientId, req.origin.value, req.clientType, stored, revision);
      record := Some(row);
      return Ok(row);
    }
  }

  /** An enabled confidential client has its secret, a public one has none. */
  predicate Usable(r: Record) {
    (r.enabled && r.clientType == Confidential ==> r.secret.Some?) && (r.clientType == Public ==> r.secret.None?)
  }

  /** A saved record that is enabled can always be used, and the configuration carries its revision. */
  lemma SavedResolves(r: Record, env: Environment)
    requires Usable(r)
    ensures Resolve(Some(r), env).Ok?
    ensures var c := Resolve(Some(r), env).value;
            (c.Some? <==> r.enabled) &&
            (c.Some? ==>
               c.value == ClientConfig(r.clientId, r.baseUrl + "/api/me/credential/oauth/callback",
                                       if r.clientType == Confidential then r.secret else None, Stored(r.revision)))
  {
  }

  /** Without a record the deployment's own client is used, with the secret its file holds, if it names a
      client and a redirect; a file that cannot be read is an error. */
  lemma EnvironmentResolves(env: Environment)
    ensures Resolve(None, env).Err? <==> env.clientId != "" && env.redirectUrl != "" && env.secretFile == Unreadable
    ensures var c := Resolve(None, env);
            c.Ok? ==>
              c.value == if env.clientId == "" || env.redirectUrl == "" then None
                         else Some(ClientConfig(env.clientId, env.redirectUrl,
                                                if env.secretFile.Holds? then Some(env.secretFile.secret) else None,
                                                FromEnvironment))
  {
  }
}
