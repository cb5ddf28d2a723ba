/** What enrolment and activation guarantee at every point where they can fail. */
module ActivationTheorems {
  import opened Results
  import opened GoStrings
  import opened ReportingConfig
  import opened TokenRefresh
  import opened Activation

  // An enrolment that fails leaves the stored credentials as they were: at most it has
  // created a config that holds nothing but an installation id. The login token is never touched.
  lemma FailedEnrollmentWritesNoCredentials(
      env: Env, m: Machine, client: Option<UserClient>, serverURL: string, authSubject: string, io: EnrollIO)
    ensures var (after, r) := Enroll(env, m, client, serverURL, authSubject, io);
            && after.token == m.token && m.issued <= after.issued
            && (r.Err? ==>
                  || after.reporting == m.reporting
                  || (m.reporting.Missing? && after.reporting.Stored? &&
                      after.reporting.value == NewConfig(after.reporting.value.installationID)))
  {
    LoadingWritesNoCredentials(env, m, io);
    if client.Some? && io.ensureReply.Some? {
      var (loaded, config) := LoadOrCreate(env, m, io);
      var reply := io.ensureReply.value;
      if config.Ok? && reply.protocol.Valid() {
        AcceptanceWritesOnSuccess(
          env,
          Handed(env, loaded, client.value, reply.reporterToken),
          WithCredentials(config.value, serverURL, authSubject, reply), client.value, io);
      }
    }
  }

  lemma AcceptanceWritesOnSuccess(env: Env, m: Machine, c: Config, client: UserClient, io: EnrollIO)
    ensures var (after, r) := Accept(env, m, c, client, io);
            && after.token == m.token && m.issued <= after.issued
            && (r.Err? ==> after.reporting == m.reporting)
            && (r.Ok? ==> after.reporting == Stored.Stored(r.value))
  {
  }

  // An acceptance keeps the token it is given, or recovers the missing one by rotation.
  lemma AcceptanceAgrees(env: Env, m: Machine, c: Config, client: UserClient, io: EnrollIO)
    requires Accept(env, m, c, client, io).1.Ok?
    ensures var r := Accept(env, m, c, client, io).1.value;
            if c.reporterToken != "" then r == c
            else
              && io.rotateReply.Some?
              && io.rotateReply.value.reporterToken != ""
              && io.rotateReply.value.protocol == c.protocol
              && r == c.(reporterToken := io.rotateReply.value.reporterToken,
                         reportingEnabled := io.rotateReply.value.reportingEnabled)
  {
  }

  // A successful enrolment went through every step.
  lemma EnrollmentSteps(
      env: Env, m: Machine, client: Option<UserClient>, serverURL: string, authSubject: string, io: EnrollIO)
    requires Enroll(env, m, client, serverURL, authSubject, io).1.Ok?
    ensures client.Some? && io.ensureReply.Some? && io.ensureReply.value.protocol.Valid()
    ensures LoadOrCreate(env, m, io).1.Ok?
    ensures var (loaded, config) := LoadOrCreate(env, m, io);
            Enroll(env, m, client, serverURL, authSubject, io) ==
            Accept(
              env,
              Handed(env, loaded, client.value, io.ensureReply.value.reporterToken),
              WithCredentials(config.value, serverURL, authSubject, io.ensureReply.value), client.value, io)
  {
  }

  lemma LoadingWritesNoCredentials(env: Env, m: Machine, io: EnrollIO)
    ensures var (after, r) := LoadOrCreate(env, m, io);
            && after.token == m.token && after.issued == m.issued
            && (r.Ok? ==> after.reporting == Stored.Stored(r.value))
            && (m.reporting.Missing? && r.Ok? ==> r.value == NewConfig(r.value.installationID))
            && (!m.reporting.Missing? || r.Err? ==> after.reporting == m.reporting)
  {
  }

  /** The config an enrolment starts from keeps these over the enrolment. */
  predicate SameInstallation(before: Config, after: Config) {
    && after.installationID == before.installationID && after.relayProviderID == before.relayProviderID
    && after.otlpToken == before.otlpToken && after.enabledAt == before.enabledAt
  }

  // A successful enrolment stores what it answers: a token, the server and account asked for,
  // and one valid protocol on which the ensure reply and, if used, the rotate reply agree.
  lemma EnrollmentAgrees(
      env: Env, m: Machine, client: Option<UserClient>, serverURL: string, authSubject: string, io: EnrollIO)
    ensures var (after, r) := Enroll(env, m, client, serverURL, authSubject, io);
            r.Ok? ==>
              && after.reporting == Stored.Stored(r.value)
              && r.value.reporterToken != ""
              && r.value.serverURL == TrimSlashes(TrimSpace(serverURL)) && r.value.authSubject == TrimSpace(authSubject)
              && r.value.protocol.Valid()
              && io.ensureReply.Some? && io.ensureReply.value.protocol == r.value.protocol
              && SameInstallation(
                   if m.reporting.Stored? then m.reporting.value else NewConfig(r.value.installationID), r.value)
              && (UsesRotation(m, io) ==> io.rotateReply.Some? && io.rotateReply.value.protocol == r.value.protocol)
              && Some(r.value.reporterToken) == TokenSource(m, io)
              && r.value.reportingEnabled ==
                 (if UsesRotation(m, io) then io.rotateReply.value.reportingEnabled
                  else io.ensureReply.value.reportingEnabled)
  {
    if Enroll(env, m, client, serverURL, authSubject, io).1.Ok? {
      EnrollmentSteps(env, m, client, serverURL, authSubject, io);
      LoadingWritesNoCredentials(env, m, io);
      var (loaded, config) := LoadOrCreate(env, m, io);
      var reply := io.ensureReply.value;
      var seen := Handed(env, loaded, client.value, reply.reporterToken);
      var c := WithCredentials(config.value, serverURL, authSubject, reply);
      AcceptanceWritesOnSuccess(env, seen, c, client.value, io);
      AcceptanceAgrees(env, seen, c, client.value, io);
    }
  }

  // A new config holds its installation id and nothing else.
  lemma NewConfigIsBare(id: string)
    ensures var c := NewConfig(id);
            && c.installationID == id && c.serverURL == c.authSubject == c.reporterToken == c.otlpToken == ""
            && c.relayProviderID == 0 && !c.reportingEnabled && c.enabledAt == None
            && c.protocol.ledgerEpoch == c.protocol.v1WritePolicy == c.protocol.minimumCLIVersion == ""
  {
  }

  /** The id of the installation before an enrolment, or the one it would create. */
  function InstallationID(m: Machine, io: EnrollIO): string {
    if m.reporting.Stored? then m.reporting.value.installationID
    else if m.identity.Stored? then m.identity.value
    else io.freshID
  }

  // A config can be loaded, or created, exactly when the two files can be read and agree, their
  // id is a UUID, and what is missing can be written; afterwards both files hold that id.
  lemma LoadingMeaning(env: Env, m: Machine, io: EnrollIO)
    ensures var (after, r) := LoadOrCreate(env, m, io);
            && (r.Ok? <==>
                  && !m.reporting.Corrupt? && !m.identity.Corrupt?
                  && env.validUUID(TrimSpace(InstallationID(m, io)))
                  && (m.reporting.Stored? ==> env.validUUID(m.reporting.value.installationID))
                  && (m.identity.Stored? ==> m.identity.value == InstallationID(m, io))
                  && (m.identity.Missing? ==> io.identityWrites)
                  && (m.reporting.Missing? ==> io.creates))
            && (r.Ok? ==> r.value.installationID == InstallationID(m, io) && after.identity == Stored.Stored(InstallationID(m, io)))
            && (r.Err? ==> after.identity == m.identity || (m.identity.Missing? && after.identity == Stored.Stored(io.freshID)))
  {
  }

  // An enrolment succeeds exactly when there is a client and a home, a config, an ensure reply
  // with a valid protocol, a token (sent, on disk, or from a rotation that agrees with the
  // ensure reply), and the config can be saved.
  lemma EnrollmentSucceedsIff(
      env: Env, m: Machine, client: Option<UserClient>, serverURL: string, authSubject: string, io: EnrollIO)
    ensures Enroll(env, m, client, serverURL, authSubject, io).1.Ok? <==>
            && client.Some? && io.home && LoadOrCreate(env, m, io).1.Ok?
            && io.ensureReply.Some? && io.ensureReply.value.protocol.Valid()
            && (|| io.ensureReply.value.reporterToken != ""
                || (m.reporting.Stored? && m.reporting.value.reporterToken != "")
                || (&& io.rotateReply.Some? && io.rotateReply.value.protocol == io.ensureReply.value.protocol
                    && io.rotateReply.value.reporterToken != ""))
            && io.saves
  {
    LoadingWritesNoCredentials(env, m, io);
    if client.Some? && io.home && LoadOrCreate(env, m, io).1.Ok? && io.ensureReply.Some? &&
       io.ensureReply.value.protocol.Valid() {
      var (loaded, config) := LoadOrCreate(env, m, io);
      var reply := io.ensureReply.value;
      AcceptanceSucceedsIff(
        env, Handed(env, loaded, client.value, reply.reporterToken),
        WithCredentials(config.value, serverURL, authSubject, reply), client.value, io);
    }
  }

  lemma AcceptanceSucceedsIff(env: Env, m: Machine, c: Config, client: UserClient, io: EnrollIO)
    requires c.protocol.Valid()
    ensures Accept(env, m, c, client, io).1.Ok? <==>
            && io.saves
            && (|| c.reporterToken != ""
                || (&& io.rotateReply.Some? && io.rotateReply.value.protocol == c.protocol
                    && io.rotateReply.value.reporterToken != ""))
  {
  }

  /** The server sent no token and there is none on disk. */
  predicate UsesRotation(m: Machine, io: EnrollIO) {
    && io.ensureReply.Some? && io.ensureReply.value.reporterToken == ""
    && !(m.reporting.Stored? && m.reporting.value.reporterToken != "")
  }

  /** Where the token of an enrolment comes from: the rotation, the ensure reply, or the disk. */
  function TokenSource(m: Machine, io: EnrollIO): Option<string> {
    if UsesRotation(m, io) then (if io.rotateReply.Some? then Some(io.rotateReply.value.reporterToken) else None)
    else if io.ensureReply.Some? && io.ensureReply.value.reporterToken != "" then Some(io.ensureReply.value.reporterToken)
    else if m.reporting.Stored? then Some(m.reporting.value.reporterToken)
    else None
  }

  // After its enrolment an activation changes the stored config at most by enabling it.
  lemma ActivationAfterEnrollment(
      env: Env, m: Machine, client: Option<UserClient>, serverURL: string, authSubject: string, io: ActivateIO)
    ensures var (enrolled, config) := Enroll(env, m, client, serverURL, authSubject, io.enroll);
            var a := Activate(env, m, client, serverURL, authSubject, io);
            || a.machine == enrolled
            || (config.Ok? && io.enableReply.Some? &&
                a.machine == enrolled.(reporting := Stored.Stored(Enabled(config.value, io.enableReply.value, io.now))))
  {
  }

  lemma SuccessSteps(
      env: Env, m: Machine, client: Option<UserClient>, serverURL: string, authSubject: string, io: ActivateIO)
    requires var a := Activate(env, m, client, serverURL, authSubject, io);
             a.error.None? || a.error == Some(HooksWarning)
    ensures var (enrolled, config) := Enroll(env, m, client, serverURL, authSubject, io.enroll);
            && config.Ok? && io.enableReply.Some? && io.enableReply.value.protocol == config.value.protocol
            && var c := Enabled(config.value, io.enableReply.value, io.now);
               && c.reportingEnabled
               && Activate(env, m, client, serverURL, authSubject, io).config == Some(c)
               && Activate(env, m, client, serverURL, authSubject, io).machine ==
                  enrolled.(reporting := Stored.Stored(c))
  {
  }

  // An activation that reports success, or only the warning about the hooks, has got one
  // valid protocol from every reply and stored an enabled config with a token; the config is
  // then accepted exactly when the token that was sent, or kept, is not blank.
  lemma SuccessfulActivationIsEnabled(
      env: Env, m: Machine, client: Option<UserClient>, serverURL: string, authSubject: string, io: ActivateIO)
    ensures var a := Activate(env, m, client, serverURL, authSubject, io);
            a.error.None? || a.error == Some(HooksWarning) ==>
              && a.config.Some? && a.machine.reporting == Stored.Stored(a.config.value)
              && var c := a.config.value;
                 && c.reportingEnabled && c.reporterToken != "" && c.enabledAt.Some?
                 && c.protocol.Valid()
                 && io.enroll.ensureReply.Some? && io.enroll.ensureReply.value.protocol == c.protocol
                 && (UsesRotation(m, io.enroll) ==>
                       io.enroll.rotateReply.Some? && io.enroll.rotateReply.value.protocol == c.protocol)
                 && io.enableReply.Some? && io.enableReply.value.protocol == c.protocol
                 && io.enableReply.value.reportingEnabled
                 && (EnabledConfig(a.machine.reporting) == Some(c) <==> EnabledConfig(a.machine.reporting).Some?)
                 && TokenSource(m, io.enroll).Some?
                 && (EnabledConfig(a.machine.reporting).Some? <==> !Blank(TokenSource(m, io.enroll).value))
  {
    var a := Activate(env, m, client, serverURL, authSubject, io);
    if a.error.None? || a.error == Some(HooksWarning) {
      SuccessSteps(env, m, client, serverURL, authSubject, io);
      EnrollmentAgrees(env, m, client, serverURL, authSubject, io.enroll);
    }
  }

  /** The enable reply can be taken over: it came, and its protocol is valid and that of the enrolment. */
  predicate EnableAgrees(c: Config, reply: Option<Credentials>) {
    reply.Some? && reply.value.protocol.Valid() && reply.value.protocol == c.protocol
  }

  // What the server says about reporting is what is stored, and a server that declines makes
  // the activation fail: after an enrolment, the config is saved exactly when the enable reply
  // agrees and the file can be written; it then differs from the enrolled one in the flag the
  // reply carries and in the time of a first activation. What is reported follows from there.
  lemma EnableReplyDecides(
      env: Env, m: Machine, client: Option<UserClient>, serverURL: string, authSubject: string, io: ActivateIO)
    ensures var (enrolled, config) := Enroll(env, m, client, serverURL, authSubject, io.enroll);
            var a := Activate(env, m, client, serverURL, authSubject, io);
            var saved := config.Ok? && EnableAgrees(config.value, io.enableReply) && io.enableSaves;
            && (config.Err? ==> a.error == Some(config.error) && a.config.None?)
            && (!saved ==> a.machine == enrolled && a.error.Some?)
            && (saved ==>
                  && a.machine.reporting.Stored? && a.config == Some(a.machine.reporting.value)
                  && a.machine == enrolled.(reporting := a.machine.reporting)
                  && var c := a.machine.reporting.value;
                     && c.reportingEnabled == io.enableReply.value.reportingEnabled
                     && c.enabledAt == (if config.value.enabledAt.Some? then config.value.enabledAt else Some(io.now))
                     && c.(reportingEnabled := config.value.reportingEnabled, enabledAt := config.value.enabledAt) ==
                        config.value)
            && (a.error == Some(NotActivated) <==> saved && !io.enableReply.value.reportingEnabled)
            && (a.error == Some(CleanupFailed) <==> saved && io.enableReply.value.reportingEnabled && !io.cleans)
            && (a.error == Some(HooksWarning) <==>
                  saved && io.enableReply.value.reportingEnabled && io.cleans && !io.hooks)
            && (a.error.None? <==> saved && io.enableReply.value.reportingEnabled && io.cleans && io.hooks)
  {
    EnrollmentErrors(env, m, client, serverURL, authSubject, io.enroll);
    if Enroll(env, m, client, serverURL, authSubject, io.enroll).1.Ok? {
      SavedExactly(env, m, client, serverURL, authSubject, io);
    }
  }

  lemma EnrollmentErrors(
      env: Env, m: Machine, client: Option<UserClient>, serverURL: string, authSubject: string, io: EnrollIO)
    ensures var r := Enroll(env, m, client, serverURL, authSubject, io).1;
            r.Err? ==> r.error !in {NotActivated, CleanupFailed, HooksWarning}
  {
  }

  lemma SavedExactly(
      env: Env, m: Machine, client: Option<UserClient>, serverURL: string, authSubject: string, io: ActivateIO)
    requires Enroll(env, m, client, serverURL, authSubject, io.enroll).1.Ok?
    ensures var (enrolled, config) := Enroll(env, m, client, serverURL, authSubject, io.enroll);
            var a := Activate(env, m, client, serverURL, authSubject, io);
            if EnableAgrees(config.value, io.enableReply) && io.enableSaves then
              var c := Enabled(config.value, io.enableReply.value, io.now);
              && a.machine == enrolled.(reporting := Stored.Stored(c)) && a.config == Some(c)
              && a.error == (if !c.reportingEnabled then Some(NotActivated) else if !io.cleans then Some(CleanupFailed)
                             else if !io.hooks then Some(HooksWarning) else None)
            else a.machine == enrolled && a.error.Some? && a.error.value in {RequestFailed, InvalidProtocol, ProtocolChanged, SaveFailed}
  {
  }

  /** The same replies but for the text of the token in the ensure reply. */
  function SendingToken(io: ActivateIO, token: string): ActivateIO
    requires io.enroll.ensureReply.Some?
  {
    io.(enroll := io.enroll.(ensureReply := Some(io.enroll.ensureReply.value.(reporterToken := token))))
  }

  // What a token says makes no difference to whether an activation succeeds, as long as it is
  // not empty.
  lemma TokenTextDoesNotMatter(
      env: Env, m: Machine, client: Option<UserClient>, serverURL: string, authSubject: string, io: ActivateIO,
      other: string)
    requires io.enroll.ensureReply.Some? && io.enroll.ensureReply.value.reporterToken != "" && other != ""
    ensures Activate(env, m, client, serverURL, authSubject, SendingToken(io, other)).error ==
            Activate(env, m, client, serverURL, authSubject, io).error
  {
    EnrollmentIgnoresText(env, m, client, serverURL, authSubject, io.enroll, other);
  }

  lemma EnrollmentIgnoresText(
      env: Env, m: Machine, client: Option<UserClient>, serverURL: string, authSubject: string, io: EnrollIO,
      other: string)
    requires io.ensureReply.Some? && io.ensureReply.value.reporterToken != "" && other != ""
    ensures var changed := io.(ensureReply := Some(io.ensureReply.value.(reporterToken := other)));
            var r, s := Enroll(env, m, client, serverURL, authSubject, io).1,
                        Enroll(env, m, client, serverURL, authSubject, changed).1;
            && (r.Ok? <==> s.Ok?)
            && (r.Ok? ==> s.value == r.value.(reporterToken := other))
            && (r.Err? ==> s.error == r.error)
  {
    if client.Some? && io.home {
      var reply := io.ensureReply.value;
      var changed := io.(ensureReply := Some(reply.(reporterToken := other)));
      LoadingIgnoresReplies(env, m, io, changed.ensureReply);
      var (loaded, config) := LoadOrCreate(env, m, io);
      if config.Ok? && reply.protocol.Valid() {
        var c := WithCredentials(config.value, serverURL, authSubject, reply);
        var d := WithCredentials(config.value, serverURL, authSubject, changed.ensureReply.value);
        AcceptanceOfToken(env, Handed(env, loaded, client.value, reply.reporterToken), c, client.value, io);
        AcceptanceOfToken(env, Handed(env, loaded, client.value, other), d, client.value, changed);
      }
    }
  }

  lemma LoadingIgnoresReplies(env: Env, m: Machine, io: EnrollIO, reply: Option<Credentials>)
    ensures LoadOrCreate(env, m, io.(ensureReply := reply)) == LoadOrCreate(env, m, io)
  {
  }

  lemma AcceptanceOfToken(env: Env, m: Machine, c: Config, client: UserClient, io: EnrollIO)
    requires c.reporterToken != ""
    ensures Accept(env, m, c, client, io).1 == if io.saves then Ok(c) else Err(SaveFailed)
  {
  }

  // So a server that sends a blank token where another one would do has its activation
  // succeed, and the config that is stored is never accepted.
  lemma BlankTokenIsActivatedButRefused(
      env: Env, m: Machine, client: Option<UserClient>, serverURL: string, authSubject: string, io: ActivateIO,
      blank: string)
    requires io.enroll.ensureReply.Some? && io.enroll.ensureReply.value.reporterToken != ""
    requires Activate(env, m, client, serverURL, authSubject, io).error.None?
    requires blank != "" && Blank(blank)
    ensures var a := Activate(env, m, client, serverURL, authSubject, SendingToken(io, blank));
            a.error.None? && EnabledConfig(a.machine.reporting).None?
  {
    TokenTextDoesNotMatter(env, m, client, serverURL, authSubject, io, blank);
    SuccessfulActivationIsEnabled(env, m, client, serverURL, authSubject, SendingToken(io, blank));
  }

  // ---------------------------------------------------------------- when it was enabled

  /** One activation among many. */
  datatype Attempted = Attempted(client: Option<UserClient>, serverURL: string, authSubject: string, io: ActivateIO)

  function ActivateAll(env: Env, m: Machine, activations: seq<Attempted>): Machine {
    if activations == [] then m
    else
      var a := activations[|activations| - 1];
      Activate(
        env, ActivateAll(env, m, activations[..|activations| - 1]), a.client, a.serverURL, a.authSubject, a.io).machine
  }

  lemma ActivationKeepsEnabledAt(
      env: Env, m: Machine, client: Option<UserClient>, serverURL: string, authSubject: string, io: ActivateIO)
    requires m.reporting.Stored? && m.reporting.value.enabledAt.Some?
    ensures var after := Activate(env, m, client, serverURL, authSubject, io).machine;
            after.reporting.Stored? && after.reporting.value.enabledAt == m.reporting.value.enabledAt
  {
    ActivationAfterEnrollment(env, m, client, serverURL, authSubject, io);
    EnrollmentAgrees(env, m, client, serverURL, authSubject, io.enroll);
    FailedEnrollmentWritesNoCredentials(env, m, client, serverURL, authSubject, io.enroll);
  }

  // Over repeated activations, whether they succeed or fail, the time of the first one that
  // got through is set once and stays.
  lemma {:induction false} EnabledAtIsSetOnce(env: Env, m: Machine, activations: seq<Attempted>, n: nat)
    requires n <= |activations|
    requires var earlier := ActivateAll(env, m, activations[..n]);
             earlier.reporting.Stored? && earlier.reporting.value.enabledAt.Some?
    ensures var earlier, now := ActivateAll(env, m, activations[..n]), ActivateAll(env, m, activations);
            now.reporting.Stored? && now.reporting.value.enabledAt == earlier.reporting.value.enabledAt
    decreases |activations|
  {
    if n == |activations| {
      assert activations[..n] == activations;
    } else {
      var init := activations[..|activations| - 1];
      assert init[..n] == activations[..n];
      EnabledAtIsSetOnce(env, m, init, n);
      var a := activations[|activations| - 1];
      ActivationKeepsEnabledAt(env, ActivateAll(env, m, init), a.client, a.serverURL, a.authSubject, a.io);
    }
  }
}
