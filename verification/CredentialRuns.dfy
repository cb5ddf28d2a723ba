/** Whose reporter token is on disk, over runs of login, logout and token refresh. */
module CredentialRuns {
  import opened Results
  import opened GoStrings
  import opened ReportingConfig
  import opened TokenRefresh
  import opened Activation
  import opened ActivationTheorems

  // ---------------------------------------------------------------- servers and accounts

  /** A server URL without the space and the slashes around it. */
  function Canon(url: string): string {
    TrimLeft(TrimRight(url, IsSpaceOrSlash), IsSpace)
  }

  predicate SameServer(a: string, b: string) {
    Canon(a) == Canon(b)
  }

  predicate SameSubject(a: string, b: string) {
    TrimSpace(a) == TrimSpace(b)
  }

  lemma CanonOfTrimmed(url: string)
    ensures Canon(TrimSpace(url)) == Canon(url)
  {
    var left := TrimLeft(url, IsSpace);
    TrimRightAbsorbs(left, IsSpace, IsSpaceOrSlash);
    TrimCommutes(url, IsSpace, IsSpaceOrSlash);
    var trimmed := TrimRight(url, IsSpaceOrSlash);
    TrimLeftHead(trimmed, IsSpace);
    TrimLeftFixed(TrimLeft(trimmed, IsSpace), IsSpace);
  }

  // However a URL is written, recording it keeps the server it names.
  lemma CanonOfRecorded(url: string)
    ensures Canon(RecordedURL(url)) == Canon(url)
  {
    TrimRightAbsorbs(TrimSpace(url), IsSlash, IsSpaceOrSlash);
    CanonOfTrimmed(url);
  }

  // ---------------------------------------------------------------- labels

  /** Some server handed out the token for this server and this account. */
  ghost predicate IssuedFor(issued: seq<Issue>, token: string, server: string, account: string) {
    exists i :: i in issued && i.token == token && SameServer(i.server, server) && SameSubject(i.account, account)
  }

  predicate HoldsToken(m: Machine) {
    m.reporting.Stored? && m.reporting.value.reporterToken != ""
  }

  /** The reporter token on disk, if any, was issued for the server and account beside it. */
  ghost predicate Labelled(m: Machine) {
    HoldsToken(m) ==>
      IssuedFor(m.issued, m.reporting.value.reporterToken, m.reporting.value.serverURL, m.reporting.value.authSubject)
  }

  /** The config on disk, if it holds a token, is for this server and account. */
  predicate RecordedFor(m: Machine, server: string, subject: string) {
    HoldsToken(m) ==> SameServer(m.reporting.value.serverURL, server) && SameSubject(m.reporting.value.authSubject, subject)
  }

  predicate RecordedServer(m: Machine, server: string) {
    HoldsToken(m) ==> SameServer(m.reporting.value.serverURL, server)
  }

  /** A subject that does not speak against the account: its own, or none. */
  predicate Fits(subject: string, account: string) {
    Blank(subject) || SameSubject(subject, account)
  }

  /** The subject of an access token, where it can be read, is the account the server sees. */
  ghost predicate HonestSubjects(env: Env) {
    forall t: string :: Fits(env.subjectOf(t), env.accountOf(t))
  }

  /** The server issued the token, for an account that the subject fits and that is `who`, if that is known. */
  ghost predicate Traced(issued: seq<Issue>, token: string, server: string, subject: string, who: Option<string>) {
    exists i :: i in issued && i.token == token && SameServer(i.server, server) && Fits(subject, i.account) &&
      (who.Some? ==> SameSubject(i.account, who.value))
  }

  ghost predicate Traceable(m: Machine, who: Option<string>) {
    HoldsToken(m) ==>
      Traced(m.issued, m.reporting.value.reporterToken, m.reporting.value.serverURL, m.reporting.value.authSubject, who)
  }

  // A traceable token is labelled wrongly exactly when no subject is recorded beside it
  // although it was issued for some account.
  lemma LabelledIff(m: Machine)
    requires Traceable(m, None)
    ensures Labelled(m) <==>
            (HoldsToken(m) && Blank(m.reporting.value.authSubject) ==>
               IssuedFor(m.issued, m.reporting.value.reporterToken, m.reporting.value.serverURL, ""))
  {
    if HoldsToken(m) {
      var c := m.reporting.value;
      if Blank(c.authSubject) {
        assert SameSubject(c.authSubject, "");
      } else {
        var i :| i in m.issued && i.token == c.reporterToken && SameServer(i.server, c.serverURL) &&
          Fits(c.authSubject, i.account);
      }
    }
  }

  lemma MoreIssues(issued: seq<Issue>, more: seq<Issue>, token: string, server: string, subject: string, who: Option<string>)
    requires issued <= more && Traced(issued, token, server, subject, who)
    ensures Traced(more, token, server, subject, who)
  {
    var i :| i in issued && i.token == token && SameServer(i.server, server) && Fits(subject, i.account) &&
      (who.Some? ==> SameSubject(i.account, who.value));
    assert i in more;
  }

  lemma Relabelled(
      issued: seq<Issue>, token: string, server: string, subject: string, who: Option<string>,
      newServer: string, newSubject: string)
    requires Traced(issued, token, server, subject, who) && SameServer(server, newServer)
    requires Blank(newSubject) || (who.Some? && SameSubject(newSubject, who.value))
    ensures Traced(issued, token, newServer, newSubject, who)
  {
    var i :| i in issued && i.token == token && SameServer(i.server, server) && Fits(subject, i.account) &&
      (who.Some? ==> SameSubject(i.account, who.value));
    assert Fits(newSubject, i.account);
  }

  /** The client talks to the server that is recorded, for an account that the recorded subject fits. */
  predicate ActsFor(env: Env, client: UserClient, server: string, subject: string, who: Option<string>) {
    && SameServer(client.server, server)
    && Fits(subject, env.accountOf(client.accessToken))
    && (who.Some? ==> SameSubject(env.accountOf(client.accessToken), who.value))
  }

  /** The token an enrolment may keep can be traced under its new label too. */
  ghost predicate MayKeep(m: Machine, server: string, subject: string, who: Option<string>) {
    HoldsToken(m) ==>
      && SameServer(m.reporting.value.serverURL, server)
      && Traced(m.issued, m.reporting.value.reporterToken, server, subject, who)
  }

  // An enrolment keeps the stored token traceable when the client acts for the server and the
  // subject that are recorded, and the token it may keep can go under that label too.
  lemma EnrollmentKeepsTrace(
      env: Env, m: Machine, client: UserClient, serverURL: string, authSubject: string, io: EnrollIO, who: Option<string>)
    requires Traceable(m, who) && MayKeep(m, serverURL, authSubject, who)
    requires ActsFor(env, client, serverURL, authSubject, who)
    ensures var after := Enroll(env, m, Some(client), serverURL, authSubject, io).0;
            Traceable(after, who) && RecordedServer(after, serverURL)
  {
    var (after, r) := Enroll(env, m, Some(client), serverURL, authSubject, io);
    FailedEnrollmentWritesNoCredentials(env, m, Some(client), serverURL, authSubject, io);
    if r.Err? {
      if HoldsToken(after) {
        var c := m.reporting.value;
        MoreIssues(m.issued, after.issued, c.reporterToken, c.serverURL, c.authSubject, who);
      }
    } else {
      EnrollmentAgrees(env, m, Some(client), serverURL, authSubject, io);
      StoredTokenIsTraced(env, m, client, serverURL, authSubject, io, who);
      CanonOfRecorded(serverURL);
      TrimSpaceIdempotent(authSubject);
      SameLabel(after.issued, r.value.reporterToken, serverURL, authSubject, who, r.value.serverURL, r.value.authSubject);
    }
  }

  lemma SameLabel(
      issued: seq<Issue>, token: string, server: string, subject: string, who: Option<string>,
      sameServer: string, sameSubject: string)
    requires Traced(issued, token, server, subject, who)
    requires SameServer(server, sameServer) && SameSubject(subject, sameSubject)
    ensures Traced(issued, token, sameServer, sameSubject, who)
  {
    var i :| i in issued && i.token == token && SameServer(i.server, server) && Fits(subject, i.account) &&
      (who.Some? ==> SameSubject(i.account, who.value));
    assert Fits(sameSubject, i.account);
  }

  lemma StoredTokenIsTraced(
      env: Env, m: Machine, client: UserClient, serverURL: string, authSubject: string, io: EnrollIO, who: Option<string>)
    requires MayKeep(m, serverURL, authSubject, who) && ActsFor(env, client, serverURL, authSubject, who)
    requires Enroll(env, m, Some(client), serverURL, authSubject, io).1.Ok?
    ensures var (after, r) := Enroll(env, m, Some(client), serverURL, authSubject, io);
            Traced(after.issued, r.value.reporterToken, serverURL, authSubject, who)
  {
    var (after, r) := Enroll(env, m, Some(client), serverURL, authSubject, io);
    EnrollmentAgrees(env, m, Some(client), serverURL, authSubject, io);
    IssuesOfEnrollment(env, m, client, serverURL, authSubject, io);
    var token := r.value.reporterToken;
    if io.ensureReply.value.reporterToken == "" && HoldsToken(m) {
      MoreIssues(m.issued, after.issued, token, serverURL, authSubject, who);
    } else {
      assert Issue(token, client.server, env.accountOf(client.accessToken)) in after.issued;
    }
  }

  lemma IssuesOfEnrollment(
      env: Env, m: Machine, client: UserClient, serverURL: string, authSubject: string, io: EnrollIO)
    requires Enroll(env, m, Some(client), serverURL, authSubject, io).1.Ok?
    ensures var (after, r) := Enroll(env, m, Some(client), serverURL, authSubject, io);
            && m.issued <= after.issued
            && (if io.ensureReply.value.reporterToken == "" && HoldsToken(m) then after.issued == m.issued
                else after.issued ==
                     m.issued + [Issue(r.value.reporterToken, client.server, env.accountOf(client.accessToken))])
  {
    EnrollmentSteps(env, m, Some(client), serverURL, authSubject, io);
    LoadingWritesNoCredentials(env, m, io);
    var (loaded, config) := LoadOrCreate(env, m, io);
    var reply := io.ensureReply.value;
    AcceptanceIssues(
      env, Handed(env, loaded, client, reply.reporterToken), WithCredentials(config.value, serverURL, authSubject, reply),
      client, io);
  }

  lemma AcceptanceIssues(env: Env, m: Machine, c: Config, client: UserClient, io: EnrollIO)
    requires Accept(env, m, c, client, io).1.Ok?
    ensures var (after, r) := Accept(env, m, c, client, io);
            after.issued ==
            if c.reporterToken != "" then m.issued
            else m.issued + [Issue(r.value.reporterToken, client.server, env.accountOf(client.accessToken))]
  {
  }

  // ---------------------------------------------------------------- exactly when

  /** The token is known to have been issued for one server and one account only. */
  predicate OnlyFor(issued: seq<Issue>, token: string, server: string, account: string) {
    forall i :: i in issued && i.token == token ==> SameServer(i.server, server) && SameSubject(i.account, account)
  }

  // When the server sends no token and the old one is kept, the label stays right exactly
  // when the server and the account are still the recorded ones. This is what a new login
  // checks before it enrols.
  lemma KeptTokenIsLabelledIff(
      env: Env, m: Machine, client: UserClient, serverURL: string, authSubject: string, io: EnrollIO)
    requires Labelled(m) && HoldsToken(m)
    requires OnlyFor(m.issued, m.reporting.value.reporterToken, m.reporting.value.serverURL, m.reporting.value.authSubject)
    requires Enroll(env, m, Some(client), serverURL, authSubject, io).1.Ok?
    requires io.ensureReply.value.reporterToken == ""
    ensures Labelled(Enroll(env, m, Some(client), serverURL, authSubject, io).0) <==>
            SameServer(m.reporting.value.serverURL, serverURL) && SameSubject(m.reporting.value.authSubject, authSubject)
  {
    var (after, r) := Enroll(env, m, Some(client), serverURL, authSubject, io);
    EnrollmentAgrees(env, m, Some(client), serverURL, authSubject, io);
    IssuesOfEnrollment(env, m, client, serverURL, authSubject, io);
    CanonOfRecorded(serverURL);
    TrimSpaceIdempotent(authSubject);
  }

  // When the server hands out a token of its own, the label is right exactly when the client
  // talks to the recorded server and the account of its access token is the recorded subject.
  lemma NewTokenIsLabelledIff(
      env: Env, m: Machine, client: UserClient, serverURL: string, authSubject: string, io: EnrollIO)
    requires Enroll(env, m, Some(client), serverURL, authSubject, io).1.Ok?
    requires io.ensureReply.value.reporterToken != "" || !HoldsToken(m)
    requires forall i :: i in m.issued ==> Some(i.token) != TokenSource(m, io)
    ensures Labelled(Enroll(env, m, Some(client), serverURL, authSubject, io).0) <==>
            SameServer(client.server, serverURL) && SameSubject(env.accountOf(client.accessToken), authSubject)
  {
    var (after, r) := Enroll(env, m, Some(client), serverURL, authSubject, io);
    EnrollmentAgrees(env, m, Some(client), serverURL, authSubject, io);
    IssuesOfEnrollment(env, m, client, serverURL, authSubject, io);
    CanonOfRecorded(serverURL);
    TrimSpaceIdempotent(authSubject);
    assert Issue(r.value.reporterToken, client.server, env.accountOf(client.accessToken)) in after.issued;
  }

  lemma ActivatedLabel(env: Env, m: Machine, client: UserClient, serverURL: string, authSubject: string, io: ActivateIO)
    requires Activate(env, m, Some(client), serverURL, authSubject, io).error.None?
    ensures Enroll(env, m, Some(client), serverURL, authSubject, io.enroll).1.Ok?
    ensures Labelled(Activate(env, m, Some(client), serverURL, authSubject, io).machine) <==>
            Labelled(Enroll(env, m, Some(client), serverURL, authSubject, io.enroll).0)
  {
    SuccessSteps(env, m, Some(client), serverURL, authSubject, io);
    EnrollmentAgrees(env, m, Some(client), serverURL, authSubject, io.enroll);
  }

  /** A login that goes through the server, and whose activation succeeds. */
  predicate LogsInAfresh(env: Env, m: Machine, io: LoginIO) {
    && LoginServer(io) != "" && io.home && (io.force || m.token.None? || !m.token.value.IsValid(io.now))
    && (io.device || !io.headless) && io.oauth.Some? && io.writesToken
    && var token := NewToken(env, io.oauth.value, LoginServer(io), io.later);
       var invalidated := Invalidate(m, LoginServer(io), token.authSubject, io.deletes, io.cleans);
       && invalidated.Some?
       && Activate(
            env, invalidated.value.(token := Some(token)), Some(UserClient(LoginServer(io), token.accessToken)),
            LoginServer(io), token.authSubject, io.activate).error.None?
  }

  // A new reporter token that a login gets is labelled rightly exactly when the account of the
  // access token is the subject read out of it: a token whose subject cannot be read leaves an
  // empty label, which is wrong for every account that has a name.
  lemma FreshLoginLabelsIff(env: Env, m: Machine, io: LoginIO)
    requires LogsInAfresh(env, m, io)
    requires io.activate.enroll.ensureReply.value.reporterToken != ""
    requires forall i :: i in m.issued ==> i.token != io.activate.enroll.ensureReply.value.reporterToken
    ensures var access := io.oauth.value.accessToken;
            && (Labelled(Login(env, m, io).0) <==> SameSubject(env.accountOf(access), env.subjectOf(access)))
            && (HonestSubjects(env) ==>
                  (Labelled(Login(env, m, io).0) <==>
                   !Blank(env.subjectOf(access)) || Blank(env.accountOf(access))))
  {
    var serverURL := LoginServer(io);
    var token := NewToken(env, io.oauth.value, serverURL, io.later);
    var before := Invalidate(m, serverURL, token.authSubject, io.deletes, io.cleans).value.(token := Some(token));
    var client := UserClient(serverURL, token.accessToken);
    ActivatedLabel(env, before, client, serverURL, token.authSubject, io.activate);
    NewTokenIsLabelledIff(env, before, client, serverURL, token.authSubject, io.activate.enroll);
    assert HonestSubjects(env) ==> Fits(env.subjectOf(token.accessToken), env.accountOf(token.accessToken));
  }

  // ---------------------------------------------------------------- one command

  /** The account of the login token. */
  function Holder(env: Env, m: Machine): Option<string> {
    if m.token.Some? then Some(env.accountOf(m.token.value.accessToken)) else None
  }

  /**
    The reporter token can be traced to the server beside it and to the account of the login
    token, whose own subject, where there is one, is that account.
   */
  ghost predicate Consistent(env: Env, m: Machine) {
    && Traceable(m, Holder(env, m))
    && (m.token.Some? ==>
          && !Blank(m.token.value.serverURL)
          && RecordedServer(m, m.token.value.serverURL)
          && Fits(m.token.value.StableAuthSubject(env.subjectOf), env.accountOf(m.token.value.accessToken)))
  }

  lemma ConsistentIsTraceable(env: Env, m: Machine)
    requires Consistent(env, m)
    ensures Traceable(m, None)
  {
    if HoldsToken(m) {
      var c, who := m.reporting.value, Holder(env, m);
      var i :| i in m.issued && i.token == c.reporterToken && SameServer(i.server, c.serverURL) &&
        Fits(c.authSubject, i.account) && (who.Some? ==> SameSubject(i.account, who.value));
    }
  }

  lemma ActivationKeepsTrace(
      env: Env, m: Machine, client: UserClient, serverURL: string, authSubject: string, io: ActivateIO,
      who: Option<string>)
    requires Traceable(m, who) && MayKeep(m, serverURL, authSubject, who)
    requires ActsFor(env, client, serverURL, authSubject, who)
    ensures var after := Activate(env, m, Some(client), serverURL, authSubject, io).machine;
            Traceable(after, who) && RecordedServer(after, serverURL) && after.token == m.token
  {
    EnrollmentKeepsTrace(env, m, client, serverURL, authSubject, io.enroll, who);
    FailedEnrollmentWritesNoCredentials(env, m, Some(client), serverURL, authSubject, io.enroll);
    EnrollmentAgrees(env, m, Some(client), serverURL, authSubject, io.enroll);
    ActivationAfterEnrollment(env, m, Some(client), serverURL, authSubject, io);
  }

  /** The client acts for the login: it talks to its server, and its access token has its account. */
  predicate ActsForLogin(env: Env, m: Machine, client: UserClient)
    requires m.token.Some?
  {
    && SameServer(client.server, m.token.value.serverURL)
    && SameSubject(env.accountOf(client.accessToken), env.accountOf(m.token.value.accessToken))
  }

  lemma ActivationForLogin(
      env: Env, m: Machine, client: UserClient, serverURL: string, authSubject: string, io: ActivateIO)
    requires Consistent(env, m) && m.token.Some? && ActsForLogin(env, m, client)
    requires SameServer(serverURL, m.token.value.serverURL)
    requires SameSubject(authSubject, m.token.value.StableAuthSubject(env.subjectOf))
    ensures Consistent(env, Activate(env, m, Some(client), serverURL, authSubject, io).machine)
  {
    var who := Holder(env, m);
    if HoldsToken(m) {
      var c := m.reporting.value;
      Relabelled(m.issued, c.reporterToken, c.serverURL, c.authSubject, who, serverURL, authSubject);
    }
    ActivationKeepsTrace(env, m, client, serverURL, authSubject, io, who);
  }

  lemma ActivationLoggedOut(env: Env, m: Machine, client: UserClient, serverURL: string, io: ActivateIO)
    requires Consistent(env, m) && m.token.None?
    requires SameServer(client.server, serverURL) && RecordedServer(m, serverURL)
    ensures Consistent(env, Activate(env, m, Some(client), serverURL, "", io).machine)
  {
    if HoldsToken(m) {
      var c := m.reporting.value;
      Relabelled(m.issued, c.reporterToken, c.serverURL, c.authSubject, None, serverURL, "");
    }
    ActivationKeepsTrace(env, m, client, serverURL, "", io, None);
  }

  lemma NoClientNoChange(env: Env, m: Machine, serverURL: string, authSubject: string, io: ActivateIO)
    ensures Activate(env, m, None, serverURL, authSubject, io).machine == m
  {
  }

  lemma InvalidationMakesRoom(env: Env, m: Machine, serverURL: string, authSubject: string, deletes: bool, cleans: bool)
    ensures var after := Invalidate(m, serverURL, authSubject, deletes, cleans);
            after.Some? ==>
              && after.value.token == m.token && after.value.issued == m.issued
              && RecordedFor(after.value, serverURL, authSubject)
              && (HoldsToken(after.value) ==> after.value == m && !Blank(authSubject))
  {
    if m.reporting.Stored? {
      CanonOfRecorded(serverURL);
      CanonOfRecorded(m.reporting.value.serverURL);
    }
  }

  // A token file read from a fresh access token: what it stands for is what it says.
  lemma FreshTokenFits(env: Env, oauth: OAuthResult, serverURL: string, later: int)
    requires HonestSubjects(env)
    ensures var token := NewToken(env, oauth, serverURL, later);
            && SameSubject(token.authSubject, token.StableAuthSubject(env.subjectOf))
            && Fits(token.authSubject, env.accountOf(token.accessToken))
            && Fits(token.StableAuthSubject(env.subjectOf), env.accountOf(token.accessToken))
  {
    var token := NewToken(env, oauth, serverURL, later);
    assert Fits(env.subjectOf(token.accessToken), env.accountOf(token.accessToken));
    TrimSpaceIdempotent(token.authSubject);
  }

  // What an invalidation leaves can be traced to the new login.
  lemma InvalidatedIsConsistent(
      env: Env, m: Machine, after: Machine, token: TokenFile, serverURL: string, deletes: bool, cleans: bool)
    requires Consistent(env, m)
    requires Invalidate(m, serverURL, token.authSubject, deletes, cleans) == Some(after)
    requires token.serverURL == serverURL && !Blank(serverURL)
    requires Fits(token.authSubject, env.accountOf(token.accessToken))
    requires Fits(token.StableAuthSubject(env.subjectOf), env.accountOf(token.accessToken))
    ensures Consistent(env, after) && Consistent(env, after.(token := Some(token)))
  {
    InvalidationMakesRoom(env, m, serverURL, token.authSubject, deletes, cleans);
    if HoldsToken(after) {
      var c, who := m.reporting.value, Holder(env, m);
      var i :| i in m.issued && i.token == c.reporterToken && SameServer(i.server, c.serverURL) &&
        Fits(c.authSubject, i.account) && (who.Some? ==> SameSubject(i.account, who.value));
      assert SameSubject(c.authSubject, token.authSubject) && !Blank(c.authSubject);
      assert SameSubject(i.account, env.accountOf(token.accessToken));
    }
  }

  lemma LoginKeepsConsistent(env: Env, m: Machine, io: LoginIO)
    requires Consistent(env, m) && HonestSubjects(env)
    ensures Consistent(env, Login(env, m, io).0)
  {
    var serverURL := LoginServer(io);
    TrimSpaceIdempotent(io.configured);
    TrimSpaceIdempotent(io.fallback);
    if serverURL == "" || !io.home {
    } else if !io.force && m.token.Some? && m.token.value.IsValid(io.now) {
      var tf := m.token.value;
      var target := ActivationServer(tf, serverURL);
      CanonOfTrimmed(tf.serverURL);
      ActivationForLogin(
        env, m, UserClient(target, tf.accessToken), target, tf.StableAuthSubject(env.subjectOf), io.activate);
    } else if (io.device || !io.headless) && io.oauth.Some? {
      FreshLoginKeepsConsistent(env, m, io);
    }
  }

  lemma FreshLoginKeepsConsistent(env: Env, m: Machine, io: LoginIO)
    requires Consistent(env, m) && HonestSubjects(env) && io.oauth.Some? && LoginServer(io) != ""
    ensures var serverURL := LoginServer(io);
            var token := NewToken(env, io.oauth.value, serverURL, io.later);
            var invalidated := Invalidate(m, serverURL, token.authSubject, io.deletes, io.cleans);
            invalidated.Some? ==>
              && Consistent(env, invalidated.value)
              && Consistent(
                   env,
                   ActivateAs(
                     env, invalidated.value.(token := Some(token)), serverURL, token.accessToken, token.authSubject,
                     io.activate))
  {
    var serverURL := LoginServer(io);
    var token := NewToken(env, io.oauth.value, serverURL, io.later);
    TrimSpaceIdempotent(io.configured);
    TrimSpaceIdempotent(io.fallback);
    FreshTokenFits(env, io.oauth.value, serverURL, io.later);
    var invalidated := Invalidate(m, serverURL, token.authSubject, io.deletes, io.cleans);
    if invalidated.Some? {
      InvalidatedIsConsistent(env, m, invalidated.value, token, serverURL, io.deletes, io.cleans);
      ActivationForLogin(
        env, invalidated.value.(token := Some(token)), UserClient(serverURL, token.accessToken), serverURL,
        token.authSubject, io.activate);
    }
  }

  // ---------------------------------------------------------------- runs

  datatype Step =
    | LoginStep(login: LoginIO)
    | LogoutStep(deletes: bool)
      /** The refresh that goes before a command. */
    | RefreshStep(attempt: Attempt)
    | EnableStep(enable: EnableIO)
    | DiscoverStep(discover: DiscoverIO)

  function StepMachine(env: Env, m: Machine, step: Step): Machine {
    match step
    case LoginStep(login) => Login(env, m, login).0
    case LogoutStep(deletes) => Logout(m, deletes)
    case RefreshStep(attempt) => m.(token := Refresh(m.token, attempt, env.subjectOf).file)
    case EnableStep(enable) => EnableAttribution(env, m, enable).0
    case DiscoverStep(discover) => ActivateForDiscover(env, m, discover)
  }

  function Run(env: Env, m: Machine, steps: seq<Step>): Machine {
    if steps == [] then m
    else StepMachine(env, Run(env, m, steps[..|steps| - 1]), steps[|steps| - 1])
  }

  /** A refresh that leaves the login with the server and the account it had. */
  predicate KeepsAccount(env: Env, file: Option<TokenFile>, attempt: Attempt) {
    var next := Refresh(file, attempt, env.subjectOf).file;
    file.Some? && next.Some? ==>
      && SameServer(next.value.serverURL, file.value.serverURL)
      && SameSubject(env.accountOf(next.value.accessToken), env.accountOf(file.value.accessToken))
  }

  /**
    What a step has to bring for the label to stay right. The commands that activate with the
    client they were set up with need that client to act for the server they record, and for
    the account of the login; a login brings a client of its own.
   */
  predicate Suits(env: Env, m: Machine, step: Step) {
    match step
    case LoginStep(_) => true
    case LogoutStep(_) => true
    case RefreshStep(attempt) => KeepsAccount(env, m.token, attempt)
    case EnableStep(enable) =>
      enable.client.Some? && m.token.Some? ==> ActsForLogin(env, m, enable.client.value)
    case DiscoverStep(discover) =>
      discover.client.Some? ==>
        if m.token.Some? then ActsForLogin(env, m, discover.client.value)
        else
          && SameServer(discover.client.value.server, DiscoverServer(m, discover))
          && RecordedServer(m, DiscoverServer(m, discover))
  }

  lemma RenewedFits(env: Env, tf: TokenFile, target: string, reply: OAuthResult, later: int)
    requires HonestSubjects(env)
    requires Fits(tf.StableAuthSubject(env.subjectOf), env.accountOf(tf.accessToken))
    requires SameSubject(env.accountOf(reply.accessToken), env.accountOf(tf.accessToken))
    ensures var next := Renewed(tf, target, reply, later, env.subjectOf);
            Fits(next.StableAuthSubject(env.subjectOf), env.accountOf(next.accessToken))
  {
    var read, kept := env.subjectOf(reply.accessToken), tf.StableAuthSubject(env.subjectOf);
    assert Fits(read, env.accountOf(reply.accessToken));
    TrimSpaceIdempotent(read);
    TrimSpaceIdempotent(kept);
    FirstOfTwo(read, kept);
  }

  lemma RefreshKeepsConsistent(env: Env, m: Machine, attempt: Attempt)
    requires Consistent(env, m) && HonestSubjects(env) && KeepsAccount(env, m.token, attempt)
    ensures Consistent(env, StepMachine(env, m, RefreshStep(attempt)))
  {
    if m.token.Some? {
      var tf := m.token.value;
      var next := Refresh(m.token, attempt, env.subjectOf).file;
      if next != m.token {
        var target := TargetServer(attempt.serverURL, tf);
        RenewedFits(env, tf, target, attempt.reply.value, attempt.later);
        TrimSpaceIdempotent(attempt.serverURL);
        TrimSpaceIdempotent(tf.serverURL);
        if HoldsToken(m) {
          var c, who := m.reporting.value, env.accountOf(next.value.accessToken);
          var i :| i in m.issued && i.token == c.reporterToken && SameServer(i.server, c.serverURL) &&
            Fits(c.authSubject, i.account) && SameSubject(i.account, Holder(env, m).value);
          assert SameSubject(i.account, who);
        }
      }
    }
  }

  lemma PreservingKeepsConsistent(env: Env, m: Machine, providerID: int, io: EnrollIO)
    requires Consistent(env, m)
    ensures var after := PreserveProvider(env, m, providerID, io).0;
            && Consistent(env, after) && after.token == m.token
            && forall server :: RecordedServer(m, server) ==> RecordedServer(after, server)
  {
    LoadingWritesNoCredentials(env, m, io);
  }

  lemma DiscoverKeepsConsistent(env: Env, m: Machine, io: DiscoverIO)
    requires Consistent(env, m) && Suits(env, m, DiscoverStep(io))
    ensures Consistent(env, ActivateForDiscover(env, m, io))
  {
    PreservingKeepsConsistent(env, m, io.providerID, io.preserve);
    var before := PreserveProvider(env, m, io.providerID, io.preserve).0;
    var server, subject := DiscoverServer(before, io), DiscoverSubject(env, before);
    if io.client.None? {
      NoClientNoChange(env, before, server, subject, io.activate);
    } else if m.token.Some? {
      ActivationForLogin(env, before, io.client.value, server, subject, io.activate);
    } else {
      ActivationLoggedOut(env, before, io.client.value, server, io.activate);
    }
  }

  lemma StepKeepsConsistent(env: Env, m: Machine, step: Step)
    requires Consistent(env, m) && HonestSubjects(env) && Suits(env, m, step)
    ensures Consistent(env, StepMachine(env, m, step))
  {
    match step
    case LoginStep(login) => LoginKeepsConsistent(env, m, login);
    case LogoutStep(_) =>
      ConsistentIsTraceable(env, m);
    case RefreshStep(attempt) => RefreshKeepsConsistent(env, m, attempt);
    case EnableStep(enable) =>
      if enable.usable && enable.client.Some? && m.token.Some? {
        var tf := m.token.value;
        ActivationForLogin(
          env, m, enable.client.value, tf.serverURL, tf.StableAuthSubject(env.subjectOf), enable.activate);
      }
    case DiscoverStep(discover) => DiscoverKeepsConsistent(env, m, discover);
  }

  ghost predicate AllSuit(env: Env, m: Machine, steps: seq<Step>) {
    forall i :: 0 <= i < |steps| ==> Suits(env, Run(env, m, steps[..i]), steps[i])
  }

  lemma AllSuitButLast(env: Env, m: Machine, steps: seq<Step>)
    requires AllSuit(env, m, steps) && steps != []
    ensures AllSuit(env, m, steps[..|steps| - 1])
  {
    var init := steps[..|steps| - 1];
    forall i | 0 <= i < |init|
      ensures Suits(env, Run(env, m, init[..i]), init[i])
    {
      assert init[..i] == steps[..i];
    }
  }

  lemma {:induction false} RunsStayConsistent(env: Env, m: Machine, steps: seq<Step>)
    requires Consistent(env, m) && HonestSubjects(env) && AllSuit(env, m, steps)
    ensures Consistent(env, Run(env, m, steps))
  {
    if steps != [] {
      var n := |steps| - 1;
      AllSuitButLast(env, m, steps);
      RunsStayConsistent(env, m, steps[..n]);
      StepKeepsConsistent(env, Run(env, m, steps[..n]), steps[n]);
    }
  }

  // Over any sequence of logins (fresh, repeated or forced, failing at any step), logouts,
  // refreshes, `attribution enable` and `discover`, the reporter token on disk was issued by
  // the server beside it for an account that the subject beside it does not contradict; its
  // label is wrong exactly when no subject is recorded although the token has an account.
  lemma TokensStayLabelled(env: Env, m: Machine, steps: seq<Step>)
    requires Consistent(env, m) && HonestSubjects(env) && AllSuit(env, m, steps)
    ensures var after := Run(env, m, steps);
            && Traceable(after, None)
            && (Labelled(after) <==>
                (HoldsToken(after) && Blank(after.reporting.value.authSubject) ==>
                   IssuedFor(after.issued, after.reporting.value.reporterToken, after.reporting.value.serverURL, "")))
  {
    RunsStayConsistent(env, m, steps);
    ConsistentIsTraceable(env, Run(env, m, steps));
    LabelledIff(Run(env, m, steps));
  }

  // ---------------------------------------------------------------- readable subjects

  /** Every subject on disk can be read. */
  predicate Readable(env: Env, m: Machine) {
    && (HoldsToken(m) ==> !Blank(m.reporting.value.authSubject))
    && (m.token.Some? ==> !Blank(m.token.value.StableAuthSubject(env.subjectOf)))
  }

  /** A step that brings no unreadable subject: discover takes its subject from the login. */
  predicate ReadsSubject(env: Env, m: Machine, step: Step) {
    match step
    case LoginStep(login) => login.oauth.Some? ==> !Blank(env.subjectOf(login.oauth.value.accessToken))
    case DiscoverStep(discover) => discover.client.Some? ==> m.token.Some?
    case _ => true
  }

  lemma ActivationKeepsReadable(
      env: Env, m: Machine, client: Option<UserClient>, serverURL: string, authSubject: string, io: ActivateIO)
    requires Readable(env, m) && (client.Some? ==> !Blank(authSubject))
    ensures Readable(env, Activate(env, m, client, serverURL, authSubject, io).machine)
  {
    FailedEnrollmentWritesNoCredentials(env, m, client, serverURL, authSubject, io.enroll);
    EnrollmentAgrees(env, m, client, serverURL, authSubject, io.enroll);
    ActivationAfterEnrollment(env, m, client, serverURL, authSubject, io);
    TrimSpaceIdempotent(authSubject);
  }

  lemma LoginKeepsReadable(env: Env, m: Machine, io: LoginIO)
    requires Readable(env, m) && ReadsSubject(env, m, LoginStep(io))
    ensures Readable(env, Login(env, m, io).0)
  {
    var serverURL := LoginServer(io);
    if serverURL == "" || !io.home {
    } else if !io.force && m.token.Some? && m.token.value.IsValid(io.now) {
      var tf := m.token.value;
      var target := ActivationServer(tf, serverURL);
      ActivationKeepsReadable(
        env, m, Some(UserClient(target, tf.accessToken)), target, tf.StableAuthSubject(env.subjectOf), io.activate);
    } else if (io.device || !io.headless) && io.oauth.Some? {
      FreshLoginKeepsReadable(env, m, io);
    }
  }

  lemma FreshLoginKeepsReadable(env: Env, m: Machine, io: LoginIO)
    requires Readable(env, m) && io.oauth.Some? && !Blank(env.subjectOf(io.oauth.value.accessToken))
    ensures var serverURL := LoginServer(io);
            var token := NewToken(env, io.oauth.value, serverURL, io.later);
            var invalidated := Invalidate(m, serverURL, token.authSubject, io.deletes, io.cleans);
            invalidated.Some? ==>
              && Readable(env, invalidated.value)
              && Readable(
                   env,
                   ActivateAs(
                     env, invalidated.value.(token := Some(token)), serverURL, token.accessToken, token.authSubject,
                     io.activate))
  {
    var serverURL := LoginServer(io);
    var token := NewToken(env, io.oauth.value, serverURL, io.later);
    TrimSpaceIdempotent(token.authSubject);
    InvalidationMakesRoom(env, m, serverURL, token.authSubject, io.deletes, io.cleans);
    var invalidated := Invalidate(m, serverURL, token.authSubject, io.deletes, io.cleans);
    if invalidated.Some? {
      ActivationKeepsReadable(
        env, invalidated.value.(token := Some(token)), Some(UserClient(serverURL, token.accessToken)), serverURL,
        token.authSubject, io.activate);
    }
  }

  lemma StepKeepsReadable(env: Env, m: Machine, step: Step)
    requires Readable(env, m) && ReadsSubject(env, m, step)
    ensures Readable(env, StepMachine(env, m, step))
  {
    match step
    case LoginStep(login) => LoginKeepsReadable(env, m, login);
    case LogoutStep(_) =>
    case RefreshStep(attempt) =>
      if m.token.Some? && Refresh(m.token, attempt, env.subjectOf).file != m.token {
        RenewedIsReadable(env, m.token.value, attempt);
      }
    case EnableStep(enable) =>
      if enable.usable && enable.client.Some? && m.token.Some? {
        var tf := m.token.value;
        ActivationKeepsReadable(
          env, m, enable.client, tf.serverURL, tf.StableAuthSubject(env.subjectOf), enable.activate);
      }
    case DiscoverStep(discover) =>
      LoadingWritesNoCredentials(env, m, discover.preserve);
      var before := PreserveProvider(env, m, discover.providerID, discover.preserve).0;
      ActivationKeepsReadable(
        env, before, discover.client, DiscoverServer(before, discover), DiscoverSubject(env, before), discover.activate);
  }

  lemma RenewedIsReadable(env: Env, tf: TokenFile, attempt: Attempt)
    requires AsksServer(tf, attempt) && attempt.reply.Some?
    requires !Blank(tf.StableAuthSubject(env.subjectOf))
    ensures var next := Renewed(
                  tf, TargetServer(attempt.serverURL, tf), attempt.reply.value, attempt.later, env.subjectOf);
            !Blank(next.StableAuthSubject(env.subjectOf))
  {
    var subjects := [env.subjectOf(attempt.reply.value.accessToken), tf.StableAuthSubject(env.subjectOf)];
    assert !Blank(subjects[1]);
    FirstNonEmptyBlank(subjects);
    TrimSpaceIdempotent(FirstNonEmpty(subjects));
  }

  // So while every subject can be read, the label on disk is always right.
  lemma {:induction false} ReadableRunsStayLabelled(env: Env, m: Machine, steps: seq<Step>)
    requires Consistent(env, m) && Readable(env, m) && HonestSubjects(env) && AllSuit(env, m, steps)
    requires forall i :: 0 <= i < |steps| ==> ReadsSubject(env, Run(env, m, steps[..i]), steps[i])
    ensures Readable(env, Run(env, m, steps)) && Labelled(Run(env, m, steps))
  {
    if steps != [] {
      var n := |steps| - 1;
      var init := steps[..n];
      forall i | 0 <= i < n
        ensures ReadsSubject(env, Run(env, m, init[..i]), init[i])
      {
        assert init[..i] == steps[..i];
      }
      AllSuitButLast(env, m, steps);
      ReadableRunsStayLabelled(env, m, init);
      StepKeepsReadable(env, Run(env, m, init), steps[n]);
    }
    TokensStayLabelled(env, m, steps);
  }

  // ---------------------------------------------------------------- where it fails

  /** The answers of a login that finds its token valid and activates without a new reporter token. */
  predicate ActivatesKeepingToken(env: Env, m: Machine, io: LoginIO) {
    && !io.force && io.home && LoginServer(io) != "" && m.token.Some? && m.token.value.IsValid(io.now)
    && var tf := m.token.value;
       var server, subject := ActivationServer(tf, LoginServer(io)), tf.StableAuthSubject(env.subjectOf);
       && Activate(env, m, Some(UserClient(server, tf.accessToken)), server, subject, io.activate).error.None?
       && io.activate.enroll.ensureReply.value.reporterToken == ""
  }

  // A login that finds its token valid does not compare the server with the recorded one: the
  // reporter token it keeps is labelled rightly exactly when the two are the same.
  lemma RepeatedLoginLabelsIff(env: Env, m: Machine, io: LoginIO)
    requires Labelled(m) && HoldsToken(m) && ActivatesKeepingToken(env, m, io)
    requires OnlyFor(m.issued, m.reporting.value.reporterToken, m.reporting.value.serverURL, m.reporting.value.authSubject)
    ensures Labelled(Login(env, m, io).0) <==>
            RecordedFor(m, ActivationServer(m.token.value, LoginServer(io)), m.token.value.StableAuthSubject(env.subjectOf))
  {
    var tf := m.token.value;
    var server, subject := ActivationServer(tf, LoginServer(io)), tf.StableAuthSubject(env.subjectOf);
    var client := UserClient(server, tf.accessToken);
    ActivatedLabel(env, m, client, server, subject, io.activate);
    KeptTokenIsLabelledIff(env, m, client, server, subject, io.activate.enroll);
  }

  // A refresh against another server rewrites the login token but not the reporting config,
  // and the next login, finding the token valid, records the new server beside the old
  // server's reporter token.
  lemma RetargetedRefreshMislabels(env: Env, m: Machine, attempt: Attempt, io: LoginIO)
    requires Labelled(m) && HoldsToken(m) && m.token.Some? && RecordedServer(m, m.token.value.serverURL)
    requires OnlyFor(m.issued, m.reporting.value.reporterToken, m.reporting.value.serverURL, m.reporting.value.authSubject)
    requires AsksServer(m.token.value, attempt) && attempt.reply.Some? && attempt.writes
    requires !SameServer(TargetServer(attempt.serverURL, m.token.value), m.token.value.serverURL)
    requires ActivatesKeepingToken(env, StepMachine(env, m, RefreshStep(attempt)), io)
    ensures !Labelled(Run(env, m, [RefreshStep(attempt), LoginStep(io)]))
  {
    var moved := StepMachine(env, m, RefreshStep(attempt));
    RunOfTwo(env, m, RefreshStep(attempt), LoginStep(io));
    RefreshMoves(env, m.token.value, attempt);
    var target := TargetServer(attempt.serverURL, m.token.value);
    assert ActivationServer(moved.token.value, LoginServer(io)) == TrimSpace(target);
    CanonOfTrimmed(target);
    RepeatedLoginLabelsIff(env, moved, io);
  }

  lemma RunOfTwo(env: Env, m: Machine, first: Step, second: Step)
    ensures Run(env, m, [first, second]) == StepMachine(env, StepMachine(env, m, first), second)
  {
    var steps := [first, second];
    assert steps[..1] == [first] && steps[..1][..0] == [];
    assert Run(env, m, steps[..1]) == StepMachine(env, m, first);
  }

  lemma RefreshMoves(env: Env, tf: TokenFile, attempt: Attempt)
    requires AsksServer(tf, attempt) && attempt.reply.Some? && attempt.writes
    ensures var next := Refresh(Some(tf), attempt, env.subjectOf).file;
            next.Some? && next.value.serverURL == TargetServer(attempt.serverURL, tf) && !Blank(next.value.serverURL)
  {
    TrimSpaceIdempotent(attempt.serverURL);
    TrimSpaceIdempotent(tf.serverURL);
  }
}
