/** What login and the other commands that activate leave behind, field by field. */
module LoginOutcomes {
  import opened Results
  import opened GoStrings
  import opened ReportingConfig
  import opened TokenRefresh
  import opened Activation
  import opened ActivationTheorems

  // ---------------------------------------------------------------- the config of another account

  /** The config was recorded for this server and this account, both of them given. */
  predicate SameAccount(c: Config, serverURL: string, authSubject: string) {
    && TrimSlashes(TrimSpace(serverURL)) != "" && TrimSpace(authSubject) != ""
    && TrimSlashes(TrimSpace(c.serverURL)) == TrimSlashes(TrimSpace(serverURL))
    && TrimSpace(c.authSubject) == TrimSpace(authSubject)
  }

  // A config is left alone exactly when it is for this server and account; otherwise it goes,
  // for which the file must be deletable and, if it can be read, the clean-up must work.
  // Nothing else changes.
  lemma InvalidationMeaning(m: Machine, serverURL: string, authSubject: string, deletes: bool, cleans: bool)
    ensures var after := Invalidate(m, serverURL, authSubject, deletes, cleans);
            var stays := m.reporting.Missing? ||
                         (m.reporting.Stored? && SameAccount(m.reporting.value, serverURL, authSubject));
            && (after.Some? <==> stays || (deletes && (m.reporting.Stored? ==> cleans)))
            && (after.Some? ==>
                  && after.value.reporting == (if stays then m.reporting else Missing)
                  && after.value.identity == m.identity && after.value.token == m.token && after.value.issued == m.issued)
  {
  }

  // ---------------------------------------------------------------- login

  /** The login has a server to go to and a home to keep its files in. */
  predicate MayBegin(io: LoginIO) {
    io.home && (TrimSpace(io.configured) != "" || TrimSpace(io.fallback) != "")
  }

  function TargetOf(configured: string, fallback: string): string {
    if TrimSpace(configured) != "" then TrimSpace(configured) else TrimSpace(fallback)
  }

  /** The login finds its token valid and goes no further than to activate. */
  predicate StaysLoggedIn(m: Machine, io: LoginIO) {
    && MayBegin(io) && !io.force && m.token.Some?
    && m.token.value.accessToken != "" && io.now < m.token.value.expiresAt
  }

  /** What the server answered to a login that went through. */
  predicate IsLoginToken(env: Env, io: LoginIO, t: TokenFile) {
    && io.oauth.Some?
    && t.accessToken == io.oauth.value.accessToken && t.refreshToken == io.oauth.value.refreshToken
    && (-9_223_372_036 <= io.oauth.value.expiresIn <= 9_223_372_036 ==>
          t.expiresAt == io.later + io.oauth.value.expiresIn * 1_000_000_000)
    && t.serverURL == TargetOf(io.configured, io.fallback)
    && t.authSubject == env.subjectOf(io.oauth.value.accessToken)
  }

  // A login writes a new token exactly when it goes to the server, gets an answer, can make
  // room for the account and can write the file; the token is then what the server answered.
  // It reports no error exactly then, or when it finds its token valid.
  lemma LoginTokenMeaning(env: Env, m: Machine, io: LoginIO)
    ensures var (after, error) := Login(env, m, io);
            var asks := MayBegin(io) && !StaysLoggedIn(m, io) && (io.device || !io.headless) && io.oauth.Some?;
            var goes := && asks && io.writesToken
                        && Invalidate(m, TargetOf(io.configured, io.fallback),
                                      env.subjectOf(io.oauth.value.accessToken), io.deletes, io.cleans).Some?;
            && (error.None? <==> goes || StaysLoggedIn(m, io))
            && (goes ==> after.token.Some? && IsLoginToken(env, io, after.token.value))
            && (!goes ==> after.token == m.token)
  {
    TrimSpaceIdempotent(io.configured);
    TrimSpaceIdempotent(io.fallback);
    if io.oauth.Some? {
      SecondsAreExact(io.oauth.value.expiresIn);
    }
    ActivationsKeepToken(env, io.activate);
  }

  predicate SecondsFit(n: Int64) {
    -9_223_372_036 <= n <= 9_223_372_036 ==> Seconds(n) == n * 1_000_000_000
  }

  lemma SecondsAreExact(n: Int64)
    ensures SecondsFit(n)
  {
  }

  lemma ActivationKeepsToken(
      env: Env, m: Machine, client: Option<UserClient>, serverURL: string, authSubject: string, io: ActivateIO)
    ensures Activate(env, m, client, serverURL, authSubject, io).machine.token == m.token
  {
    FailedEnrollmentWritesNoCredentials(env, m, client, serverURL, authSubject, io.enroll);
    ActivationAfterEnrollment(env, m, client, serverURL, authSubject, io);
  }

  lemma ActivationsKeepToken(env: Env, io: ActivateIO)
    ensures forall n: Machine, client: Option<UserClient>, server: string, subject: string ::
              Activate(env, n, client, server, subject, io).machine.token == n.token
  {
    forall n: Machine, client: Option<UserClient>, server: string, subject: string
      ensures Activate(env, n, client, server, subject, io).machine.token == n.token
    {
      ActivationKeepsToken(env, n, client, server, subject, io);
    }
  }

  // A login that finds its token valid activates with that token, at the server and for the
  // account it is for.
  lemma RepeatedLoginActivates(env: Env, m: Machine, io: LoginIO)
    requires StaysLoggedIn(m, io)
    ensures var tf := m.token.value;
            var server := if TrimSpace(tf.serverURL) != "" then TrimSpace(tf.serverURL)
                          else TargetOf(io.configured, io.fallback);
            var subject := if TrimSpace(tf.authSubject) != "" then TrimSpace(tf.authSubject)
                           else env.subjectOf(tf.accessToken);
            Login(env, m, io).0 ==
            Activate(env, m, Some(UserClient(server, tf.accessToken)), server, subject, io.activate).machine
  {
    TrimSpaceIdempotent(io.configured);
    TrimSpaceIdempotent(io.fallback);
  }

  // A login that went through activates with its new token, at the server it went to.
  lemma FreshLoginActivates(env: Env, m: Machine, io: LoginIO)
    requires MayBegin(io) && !StaysLoggedIn(m, io) && (io.device || !io.headless) && io.oauth.Some? && io.writesToken
    requires Invalidate(m, TargetOf(io.configured, io.fallback), env.subjectOf(io.oauth.value.accessToken),
                        io.deletes, io.cleans).Some?
    ensures var server, access := TargetOf(io.configured, io.fallback), io.oauth.value.accessToken;
            var before := Invalidate(m, server, env.subjectOf(access), io.deletes, io.cleans).value;
            exists t :: IsLoginToken(env, io, t) &&
              Login(env, m, io).0 ==
              Activate(
                env, before.(token := Some(t)), Some(UserClient(server, access)), server, env.subjectOf(access),
                io.activate).machine
  {
    TrimSpaceIdempotent(io.configured);
    TrimSpaceIdempotent(io.fallback);
    SecondsAreExact(io.oauth.value.expiresIn);
    var t := NewToken(env, io.oauth.value, TargetOf(io.configured, io.fallback), io.later);
    assert IsLoginToken(env, io, t);
  }

  // Before it has a token to write, a login changes nothing but, in making room, the config.
  lemma FailedLoginKeepsFiles(env: Env, m: Machine, io: LoginIO)
    requires Login(env, m, io).1.Some?
    ensures var after := Login(env, m, io).0;
            && after.identity == m.identity && after.token == m.token && after.issued == m.issued
            && (after.reporting == m.reporting || after.reporting.Missing?)
  {
  }

  // Logging out removes the login token, if it can, and nothing else.
  lemma LogoutRemovesTheToken(m: Machine, deletes: bool)
    ensures var after := Logout(m, deletes);
            && after.token == (if deletes then None else m.token)
            && after.reporting == m.reporting && after.identity == m.identity && after.issued == m.issued
  {
  }

  // ---------------------------------------------------------------- the other commands

  // The attribution enable command activates with the client it was given, for the server and
  // the account of the login, and counts the warning about the hooks as success.
  lemma EnableActivates(env: Env, m: Machine, io: EnableIO)
    ensures var (after, error) := EnableAttribution(env, m, io);
            if !io.usable || io.client.None? || m.token.None? then after == m && error.Some?
            else
              var tf := m.token.value;
              var subject := if TrimSpace(tf.authSubject) != "" then TrimSpace(tf.authSubject)
                             else env.subjectOf(tf.accessToken);
              var a := Activate(env, m, io.client, tf.serverURL, subject, io.activate);
              && after == a.machine
              && (error.None? <==> a.error.None? || a.error == Some(HooksWarning))
              && (error.Some? ==> error == a.error)
  {
  }

  // The provider is kept exactly when there is one and the config can be loaded and saved; it
  // is the one field that changes then.
  lemma ProviderIsKept(env: Env, m: Machine, providerID: int, io: EnrollIO)
    ensures var (after, ok) := PreserveProvider(env, m, providerID, io);
            && (ok <==> providerID <= 0 || (io.home && LoadOrCreate(env, m, io).1.Ok? && io.saves))
            && (providerID <= 0 ==> after == m)
            && (ok && providerID > 0 ==>
                  && after.reporting.Stored? && after.reporting.value.relayProviderID == providerID
                  && after.reporting.value.(relayProviderID := LoadOrCreate(env, m, io).1.value.relayProviderID) ==
                     LoadOrCreate(env, m, io).1.value
                  && after.token == m.token && after.issued == m.issued)
  {
    LoadingWritesNoCredentials(env, m, io);
  }

  // Discover activates once the provider is kept, with the client it was given, for the server
  // and the account of the login, or the configured server and no account without one.
  lemma DiscoverActivates(env: Env, m: Machine, io: DiscoverIO)
    ensures var (kept, ok) := PreserveProvider(env, m, io.providerID, io.preserve);
            ActivateForDiscover(env, m, io) ==
            if io.dryRun then m
            else if !ok then kept
            else
              var server := if m.token.Some? && TrimSpace(m.token.value.serverURL) != "" then m.token.value.serverURL
                            else TargetOf(io.configured, io.fallback);
              var subject := if m.token.None? then ""
                             else if TrimSpace(m.token.value.authSubject) != "" then TrimSpace(m.token.value.authSubject)
                             else env.subjectOf(m.token.value.accessToken);
              Activate(env, kept, io.client, server, subject, io.activate).machine
  {
    LoadingWritesNoCredentials(env, m, io.preserve);
  }
}
