/** Enrolment, activation, login and logout as they run, step by step over the files they write. */
module ActivationRuntime {
  import opened Results
  import opened GoStrings
  import opened ReportingConfig
  import opened TokenRefresh
  import opened Activation

  class Installation {
    const env: Env
    var reporting: Stored<Config>
    var identity: Stored<string>
    var token: Option<TokenFile>
    ghost var issued: seq<Issue>

    constructor (env: Env, m: Machine)
      ensures this.env == env && View() == m
    {
      this.env := env;
      reporting, identity, token, issued := m.reporting, m.identity, m.token, m.issued;
    }

    ghost function View(): Machine
      reads this
    {
      Machine(reporting, identity, token, issued)
    }

    method SaveInstallationIdentity(id: string, writes: bool) returns (ok: bool)
      modifies this`identity
      ensures ok <==> SaveIdentity(env, old(View()), id, writes).Some?
      ensures View() == if ok then SaveIdentity(env, old(View()), id, writes).value else old(View())
    {
      var valid := env.validUUID(TrimSpace(id));
      if !valid || !writes {
        return false;
      }
      identity := Stored.Stored(id);
      return true;
    }

    method LoadOrCreateConfig(io: EnrollIO) returns (r: Result<Config, Failure>)
      modifies this`reporting, this`identity
      ensures (View(), r) == LoadOrCreate(env, old(View()), io)
    {
      if reporting.Corrupt? {
        return Err(BadConfig);
      }
      var id;
      if reporting.Stored? {
        var c := reporting.value;
        var valid := env.validUUID(c.installationID);
        if !valid {
          return Err(BadConfig);
        }
        match identity {
          case Corrupt =>
            return Err(IdentityFailed);
          case Stored(known) =>
            valid := env.validUUID(TrimSpace(known));
            return if valid && known == c.installationID then Ok(c) else Err(IdentityFailed);
          case Missing =>
            var ok := SaveInstallationIdentity(c.installationID, io.identityWrites);
            return if ok then Ok(c) else Err(IdentityFailed);
        }
      }
      match identity {
        case Corrupt =>
          return Err(IdentityFailed);
        case Stored(known) =>
          var valid := env.validUUID(TrimSpace(known));
          if !valid {
            return Err(IdentityFailed);
          }
          id := known;
        case Missing =>
          var ok := SaveInstallationIdentity(io.freshID, io.identityWrites);
          if !ok {
            return Err(IdentityFailed);
          }
          id := io.freshID;
      }
      var c := NewConfig(id);
      if !io.creates {
        return Err(SaveFailed);
      }
      reporting := Stored.Stored(c);
      return Ok(c);
    }

    /** ensureReportingEnrollment. */
    method EnsureReportingEnrollment(client: Option<UserClient>, serverURL: string, authSubject: string, io: EnrollIO)
      returns (r: Result<Config, Failure>)
      modifies this`reporting, this`identity, this`issued
      ensures (View(), r) == Enroll(env, old(View()), client, serverURL, authSubject, io)
    {
      if client.None? {
        return Err(NoClient);
      }
      if !io.home {
        return Err(NoHome);
      }
      var loaded := LoadOrCreateConfig(io);
      if loaded.Err? {
        return loaded;
      }
      if io.ensureReply.None? {
        return Err(RequestFailed);
      }
      var credentials := io.ensureReply.value;
      issued := Handed(env, View(), client.value, credentials.reporterToken).issued;
      if !credentials.protocol.Valid() {
        return Err(InvalidProtocol);
      }
      var config := loaded.value;
      config := config.(serverURL := TrimSlashes(TrimSpace(serverURL)), authSubject := TrimSpace(authSubject));
      config := config.(reportingEnabled := credentials.reportingEnabled, protocol := credentials.protocol);
      if credentials.reporterToken != "" {
        config := config.(reporterToken := credentials.reporterToken);
      }
      r := CompleteEnrollment(config, client.value, io);
    }

    /** The recovery of a missing token, and the save. */
    method CompleteEnrollment(accepted: Config, client: UserClient, io: EnrollIO) returns (r: Result<Config, Failure>)
      modifies this`reporting, this`issued
      ensures (View(), r) == Accept(env, old(View()), accepted, client, io)
    {
      var config := accepted;
      if config.reporterToken == "" {
        if io.rotateReply.None? {
          return Err(RequestFailed);
        }
        var credentials := io.rotateReply.value;
        issued := Handed(env, View(), client, credentials.reporterToken).issued;
        if !credentials.protocol.Valid() {
          return Err(InvalidProtocol);
        }
        if credentials.protocol != config.protocol {
          return Err(ProtocolChanged);
        }
        config := config.(reporterToken := credentials.reporterToken, reportingEnabled := credentials.reportingEnabled);
        if config.reporterToken == "" {
          return Err(NoCredentials);
        }
      }
      if !io.saves {
        return Err(SaveFailed);
      }
      reporting := Stored.Stored(config);
      return Ok(config);
    }

    /** activateV2Reporting. */
    method ActivateV2Reporting(client: Option<UserClient>, serverURL: string, authSubject: string, io: ActivateIO)
      returns (reached: Option<Config>, error: Option<Failure>)
      modifies this`reporting, this`identity, this`issued
      ensures Activated(View(), reached, error) == Activate(env, old(View()), client, serverURL, authSubject, io)
    {
      var enrolled := EnsureReportingEnrollment(client, serverURL, authSubject, io.enroll);
      if enrolled.Err? {
        return None, Some(enrolled.error);
      }
      var config := enrolled.value;
      if io.enableReply.None? {
        return Some(config), Some(RequestFailed);
      }
      var response := io.enableReply.value;
      if !response.protocol.Valid() {
        return Some(config), Some(InvalidProtocol);
      }
      if response.protocol != config.protocol {
        return Some(config), Some(ProtocolChanged);
      }
      config := config.(reportingEnabled := response.reportingEnabled);
      if config.enabledAt.None? {
        config := config.(enabledAt := Some(io.now));
      }
      if !io.enableSaves {
        return Some(config), Some(SaveFailed);
      }
      reporting := Stored.Stored(config);
      if !config.reportingEnabled {
        return Some(config), Some(NotActivated);
      }
      if !io.cleans {
        return Some(config), Some(CleanupFailed);
      }
      if !io.hooks {
        return Some(config), Some(HooksWarning);
      }
      return Some(config), None;
    }

    method InvalidateMismatchedReportingConfig(serverURL: string, authSubject: string, deletes: bool, cleans: bool)
      returns (ok: bool)
      modifies this`reporting
      ensures ok <==> Invalidate(old(View()), serverURL, authSubject, deletes, cleans).Some?
      ensures View() == if ok then Invalidate(old(View()), serverURL, authSubject, deletes, cleans).value else old(View())
    {
      if reporting.Missing? {
        return true;
      }
      if reporting.Stored? {
        var wantServer, wantSubject := TrimSlashes(TrimSpace(serverURL)), TrimSpace(authSubject);
        var current := reporting.value;
        if wantServer != "" && wantSubject != "" && TrimSlashes(TrimSpace(current.serverURL)) == wantServer &&
           TrimSpace(current.authSubject) == wantSubject {
          return true;
        }
        if !cleans {
          return false;
        }
      }
      if !deletes {
        return false;
      }
      reporting := Missing;
      return true;
    }

    /** The login command. */
    method LoginCommand(io: LoginIO) returns (error: Option<Failure>)
      modifies this
      ensures (View(), error) == Login(env, old(View()), io)
    {
      var serverURL := LoginServer(io);
      if serverURL == "" {
        return Some(NoServer);
      }
      if !io.home {
        return Some(NoHome);
      }
      if !io.force && token.Some? && token.value.IsValid(io.now) {
        var activationServerURL := TrimSpace(token.value.serverURL);
        if activationServerURL == "" {
          activationServerURL := serverURL;
        }
        var subject := token.value.StableAuthSubject(env.subjectOf);
        var _, _ := ActivateV2Reporting(
          Some(UserClient(activationServerURL, token.value.accessToken)), activationServerURL, subject, io.activate);
        return None;
      }
      if !io.device && io.headless {
        return Some(NoBrowser);
      }
      if io.oauth.None? {
        return Some(LoginFailed);
      }
      var next := NewToken(env, io.oauth.value, serverURL, io.later);
      var ok := InvalidateMismatchedReportingConfig(serverURL, next.authSubject, io.deletes, io.cleans);
      if !ok {
        return Some(CleanupFailed);
      }
      if !io.writesToken {
        return Some(SaveFailed);
      }
      token := Some(next);
      var _, _ := ActivateV2Reporting(
        Some(UserClient(serverURL, next.accessToken)), serverURL, next.authSubject, io.activate);
      return None;
    }

    /** The attribution enable command. */
    method AttributionEnableCommand(io: EnableIO) returns (error: Option<Failure>)
      modifies this`reporting, this`identity, this`issued
      ensures (View(), error) == EnableAttribution(env, old(View()), io)
    {
      if !io.usable || io.client.None? {
        return Some(NoClient);
      }
      if token.None? {
        return Some(NoLogin);
      }
      var subject := token.value.StableAuthSubject(env.subjectOf);
      var reached;
      reached, error := ActivateV2Reporting(io.client, token.value.serverURL, subject, io.activate);
      if error == Some(HooksWarning) {
        error := None;
      }
    }

    method PreserveDiscoveredRelayProvider(providerID: int, io: EnrollIO) returns (ok: bool)
      modifies this`reporting, this`identity
      ensures (View(), ok) == PreserveProvider(env, old(View()), providerID, io)
    {
      if providerID <= 0 {
        return true;
      }
      if !io.home {
        return false;
      }
      var config := LoadOrCreateConfig(io);
      if config.Err? || !io.saves {
        return false;
      }
      reporting := Stored.Stored(config.value.(relayProviderID := providerID));
      return true;
    }

    /** activateReportingForDiscover. */
    method ActivateReportingForDiscover(io: DiscoverIO)
      modifies this`reporting, this`identity, this`issued
      ensures View() == ActivateForDiscover(env, old(View()), io)
    {
      if io.dryRun {
        return;
      }
      var ok := PreserveDiscoveredRelayProvider(io.providerID, io.preserve);
      if !ok {
        return;
      }
      var serverURL := ConfiguredServer(io.configured, io.fallback);
      var authSubject := "";
      if token.Some? {
        if !Blank(token.value.serverURL) {
          serverURL := token.value.serverURL;
        }
        authSubject := token.value.StableAuthSubject(env.subjectOf);
      }
      var _, _ := ActivateV2Reporting(io.client, serverURL, authSubject, io.activate);
    }

    method LogoutCommand(deletes: bool) returns (ok: bool)
      modifies this`token
      ensures ok == deletes && View() == Logout(old(View()), deletes)
    {
      if !deletes {
        return false;
      }
      token := None;
      return true;
    }
  }
}
