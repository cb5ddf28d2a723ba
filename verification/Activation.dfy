/** Enrolment, activation, login and logout: what each leaves on disk, wherever it fails. */
module Activation {
  import opened Results
  import opened GoStrings
  import opened ReportingConfig
  import opened TokenRefresh

  /** A reporter token, and the server and account it was issued for. */
  datatype Issue = Issue(token: string, server: string, account: string)

  /** The files under ~/.ae-cli and, in `issued`, the reporter tokens servers have handed out. */
  datatype Machine = Machine(
    reporting: Stored<Config>, identity: Stored<string>, token: Option<TokenFile>, issued: seq<Issue>)

  /**
    uuid.Parse as a test, the subject the command line reads out of an access token, and the
    account for which a server takes the bearer of that token.
   */
  datatype Env = Env(validUUID: string -> bool, subjectOf: SubjectReader, accountOf: string -> string)

  /** The API client: the server it talks to and the access token it sends. */
  datatype UserClient = UserClient(server: string, accessToken: string)

  /** What the installation endpoints answer. */
  datatype Credentials = Credentials(reporterToken: string, reportingEnabled: bool, protocol: Protocol)

  datatype Failure =
    | NoClient | NoHome | BadConfig | IdentityFailed | RequestFailed | InvalidProtocol | ProtocolChanged
    | NoCredentials | SaveFailed | NotActivated | CleanupFailed | HooksWarning
    | NoServer | NoBrowser | LoginFailed | NoLogin

  // ---------------------------------------------------------------- enrolment

  /** What an enrolment meets: the id it would create, which writes work, the server's replies. */
  datatype EnrollIO = EnrollIO(
    home: bool, freshID: string, identityWrites: bool, creates: bool,
    ensureReply: Option<Credentials>, rotateReply: Option<Credentials>, saves: bool)

  /** The identity file, written for an installation id. */
  function SaveIdentity(env: Env, m: Machine, id: string, writes: bool): Option<Machine> {
    if env.validUUID(TrimSpace(id)) && writes then Some(m.(identity := Stored.Stored(id))) else None
  }

  function ExistingConfig(env: Env, m: Machine, c: Config, io: EnrollIO): (Machine, Result<Config, Failure>) {
    if !env.validUUID(c.installationID) then (m, Err(BadConfig))
    else
      match m.identity
      case Corrupt => (m, Err(IdentityFailed))
      case Stored(id) => (m, if env.validUUID(TrimSpace(id)) && id == c.installationID then Ok(c) else Err(IdentityFailed))
      case Missing =>
        var saved := SaveIdentity(env, m, c.installationID, io.identityWrites);
        if saved.None? then (m, Err(IdentityFailed)) else (saved.value, Ok(c))
  }

  function CreateConfig(m: Machine, id: string, io: EnrollIO): (Machine, Result<Config, Failure>) {
    var c := NewConfig(id);
    if io.creates then (m.(reporting := Stored.Stored(c)), Ok(c)) else (m, Err(SaveFailed))
  }

  /** reporting.LoadOrCreate. */
  function LoadOrCreate(env: Env, m: Machine, io: EnrollIO): (Machine, Result<Config, Failure>) {
    match m.reporting
    case Corrupt => (m, Err(BadConfig))
    case Stored(c) => ExistingConfig(env, m, c, io)
    case Missing =>
      match m.identity
      case Corrupt => (m, Err(IdentityFailed))
      case Stored(id) => if env.validUUID(TrimSpace(id)) then CreateConfig(m, id, io) else (m, Err(IdentityFailed))
      case Missing =>
        var saved := SaveIdentity(env, m, io.freshID, io.identityWrites);
        if saved.None? then (m, Err(IdentityFailed)) else CreateConfig(saved.value, io.freshID, io)
  }

  /** How a server URL is recorded. */
  function RecordedURL(raw: string): string {
    TrimSlashes(TrimSpace(raw))
  }

  /** A reply's token, if it carries one, was issued for whoever asked. */
  function Handed(env: Env, m: Machine, client: UserClient, token: string): Machine {
    if token == "" then m
    else m.(issued := m.issued + [Issue(token, client.server, env.accountOf(client.accessToken))])
  }

  /** The config an accepted ensure reply leads to, before a missing token is recovered. */
  function WithCredentials(c: Config, serverURL: string, authSubject: string, reply: Credentials): Config {
    c.(serverURL := RecordedURL(serverURL), authSubject := TrimSpace(authSubject),
       reportingEnabled := reply.reportingEnabled, protocol := reply.protocol,
       reporterToken := if reply.reporterToken != "" then reply.reporterToken else c.reporterToken)
  }

  /** The recovery of a missing token. */
  function Rotated(c: Config, reply: Option<Credentials>): Result<Config, Failure> {
    if reply.None? then Err(RequestFailed)
    else if !reply.value.protocol.Valid() then Err(InvalidProtocol)
    else if reply.value.protocol != c.protocol then Err(ProtocolChanged)
    else if reply.value.reporterToken == "" then Err(NoCredentials)
    else Ok(c.(reporterToken := reply.value.reporterToken, reportingEnabled := reply.value.reportingEnabled))
  }

  function Store(m: Machine, c: Config, saves: bool): (Machine, Result<Config, Failure>) {
    if saves then (m.(reporting := Stored.Stored(c)), Ok(c)) else (m, Err(SaveFailed))
  }

  /** An enrolment once the server has accepted the installation. */
  function Accept(env: Env, m: Machine, c: Config, client: UserClient, io: EnrollIO)
    : (Machine, Result<Config, Failure>)
  {
    if c.reporterToken != "" then Store(m, c, io.saves)
    else
      var rotated := Rotated(c, io.rotateReply);
      var seen := if io.rotateReply.Some? then Handed(env, m, client, io.rotateReply.value.reporterToken) else m;
      if rotated.Err? then (seen, rotated) else Store(seen, rotated.value, io.saves)
  }

  /** ensureReportingEnrollment. */
  function Enroll(env: Env, m: Machine, client: Option<UserClient>, serverURL: string, authSubject: string, io: EnrollIO)
    : (Machine, Result<Config, Failure>)
  {
    if client.None? then (m, Err(NoClient))
    else if !io.home then (m, Err(NoHome))
    else
      var (loaded, config) := LoadOrCreate(env, m, io);
      if config.Err? then (loaded, config)
      else if io.ensureReply.None? then (loaded, Err(RequestFailed))
      else
        var reply := io.ensureReply.value;
        var seen := Handed(env, loaded, client.value, reply.reporterToken);
        if !reply.protocol.Valid() then (seen, Err(InvalidProtocol))
        else Accept(env, seen, WithCredentials(config.value, serverURL, authSubject, reply), client.value, io)
  }

  // ---------------------------------------------------------------- activation

  datatype ActivateIO = ActivateIO(
    enroll: EnrollIO, now: int, enableReply: Option<Credentials>, enableSaves: bool, cleans: bool, hooks: bool)

  /** The machine, the config that was reached if any, and what went wrong if anything. */
  datatype Activated = Activated(machine: Machine, config: Option<Config>, error: Option<Failure>)

  function Enabled(c: Config, reply: Credentials, now: int): Config {
    c.(reportingEnabled := reply.reportingEnabled, enabledAt := if c.enabledAt.None? then Some(now) else c.enabledAt)
  }

  /** activateV2Reporting. */
  function Activate(env: Env, m: Machine, client: Option<UserClient>, serverURL: string, authSubject: string, io: ActivateIO)
    : Activated
  {
    var (enrolled, config) := Enroll(env, m, client, serverURL, authSubject, io.enroll);
    if config.Err? then Activated(enrolled, None, Some(config.error))
    else
      var c := config.value;
      if io.enableReply.None? then Activated(enrolled, Some(c), Some(RequestFailed))
      else if !io.enableReply.value.protocol.Valid() then Activated(enrolled, Some(c), Some(InvalidProtocol))
      else if io.enableReply.value.protocol != c.protocol then Activated(enrolled, Some(c), Some(ProtocolChanged))
      else
        var enabled := Enabled(c, io.enableReply.value, io.now);
        if !io.enableSaves then Activated(enrolled, Some(enabled), Some(SaveFailed))
        else
          Activated(
            enrolled.(reporting := Stored.Stored(enabled)), Some(enabled),
            if !enabled.reportingEnabled then Some(NotActivated)
            else if !io.cleans then Some(CleanupFailed)
            else if !io.hooks then Some(HooksWarning)
            else None)
  }

  // ---------------------------------------------------------------- login and logout

  /** invalidateMismatchedReportingConfig: none when it fails. */
  function Invalidate(m: Machine, serverURL: string, authSubject: string, deletes: bool, cleans: bool): Option<Machine> {
    match m.reporting
    case Missing => Some(m)
    case Corrupt => if deletes then Some(m.(reporting := Missing)) else None
    case Stored(c) =>
      if IsFor(c, serverURL, authSubject) then Some(m)
      else if cleans && deletes then Some(m.(reporting := Missing))
      else None
  }

  /** The config was recorded for this server and this account, neither of them blank. */
  predicate IsFor(c: Config, serverURL: string, authSubject: string) {
    && RecordedURL(serverURL) != "" && TrimSpace(authSubject) != ""
    && RecordedURL(c.serverURL) == RecordedURL(serverURL)
    && TrimSpace(c.authSubject) == TrimSpace(authSubject)
  }

  /** resolveLoginServerURL. */
  function ConfiguredServer(configured: string, fallback: string): string {
    if !Blank(configured) then TrimSpace(configured) else TrimSpace(fallback)
  }

  datatype LoginIO = LoginIO(
    configured: string, fallback: string, force: bool, home: bool, now: int, later: int,
    device: bool, headless: bool, oauth: Option<OAuthResult>,
    deletes: bool, cleans: bool, writesToken: bool, activate: ActivateIO)

  function LoginServer(io: LoginIO): string {
    ConfiguredServer(io.configured, io.fallback)
  }

  /** The server a still valid login is activated with. */
  function ActivationServer(tf: TokenFile, serverURL: string): string {
    if !Blank(tf.serverURL) then TrimSpace(tf.serverURL) else serverURL
  }

  function NewToken(env: Env, oauth: OAuthResult, serverURL: string, later: int): TokenFile {
    TokenFile(
      oauth.accessToken, oauth.refreshToken, later + Seconds(oauth.expiresIn), serverURL,
      env.subjectOf(oauth.accessToken))
  }

  /** Activation from a login, whose own failure is only a warning. */
  function ActivateAs(
      env: Env, m: Machine, serverURL: string, accessToken: string, authSubject: string, io: ActivateIO): Machine
  {
    Activate(env, m, Some(UserClient(serverURL, accessToken)), serverURL, authSubject, io).machine
  }

  /** The login command: the machine after it and its error, if any. */
  function Login(env: Env, m: Machine, io: LoginIO): (Machine, Option<Failure>) {
    var serverURL := LoginServer(io);
    if serverURL == "" then (m, Some(NoServer))
    else if !io.home then (m, Some(NoHome))
    else if !io.force && m.token.Some? && m.token.value.IsValid(io.now) then
      var tf := m.token.value;
      (ActivateAs(
         env, m, ActivationServer(tf, serverURL), tf.accessToken, tf.StableAuthSubject(env.subjectOf), io.activate),
       None)
    else if !io.device && io.headless then (m, Some(NoBrowser))
    else if io.oauth.None? then (m, Some(LoginFailed))
    else
      var token := NewToken(env, io.oauth.value, serverURL, io.later);
      var invalidated := Invalidate(m, serverURL, token.authSubject, io.deletes, io.cleans);
      if invalidated.None? then (m, Some(CleanupFailed))
      else if !io.writesToken then (invalidated.value, Some(SaveFailed))
      else
        (ActivateAs(
           env, invalidated.value.(token := Some(token)), serverURL, token.accessToken, token.authSubject, io.activate),
         None)
  }

  function Logout(m: Machine, deletes: bool): Machine {
    if deletes then m.(token := None) else m
  }

  // ---------------------------------------------------------------- activation by other commands

  /** What `attribution enable` is given: the client set up for the command, and whether it may be used. */
  datatype EnableIO = EnableIO(client: Option<UserClient>, usable: bool, activate: ActivateIO)

  /** The attribution enable command; the warning about the hooks is no error. */
  function EnableAttribution(env: Env, m: Machine, io: EnableIO): (Machine, Option<Failure>) {
    if !io.usable || io.client.None? then (m, Some(NoClient))
    else if m.token.None? then (m, Some(NoLogin))
    else
      var tf := m.token.value;
      var a := Activate(env, m, io.client, tf.serverURL, tf.StableAuthSubject(env.subjectOf), io.activate);
      (a.machine, if a.error == Some(HooksWarning) then None else a.error)
  }

  datatype DiscoverIO = DiscoverIO(
    client: Option<UserClient>, configured: string, fallback: string, dryRun: bool, providerID: int,
    preserve: EnrollIO, activate: ActivateIO)

  /** preserveDiscoveredRelayProvider: the machine after it, and whether it worked. */
  function PreserveProvider(env: Env, m: Machine, providerID: int, io: EnrollIO): (Machine, bool) {
    if providerID <= 0 then (m, true)
    else if !io.home then (m, false)
    else
      var (loaded, config) := LoadOrCreate(env, m, io);
      if config.Err? || !io.saves then (loaded, false)
      else (loaded.(reporting := Stored.Stored(config.value.(relayProviderID := providerID))), true)
  }

  /** The server that discover records. */
  function DiscoverServer(m: Machine, io: DiscoverIO): string {
    if m.token.Some? && !Blank(m.token.value.serverURL) then m.token.value.serverURL
    else ConfiguredServer(io.configured, io.fallback)
  }

  function DiscoverSubject(env: Env, m: Machine): string {
    if m.token.Some? then m.token.value.StableAuthSubject(env.subjectOf) else ""
  }

  /** activateReportingForDiscover, whose failures are only warnings. */
  function ActivateForDiscover(env: Env, m: Machine, io: DiscoverIO): Machine {
    if io.dryRun then m
    else
      var (preserved, ok) := PreserveProvider(env, m, io.providerID, io.preserve);
      if !ok then preserved
      else
        Activate(
          env, preserved, io.client, DiscoverServer(preserved, io), DiscoverSubject(env, preserved), io.activate).machine
  }
}
