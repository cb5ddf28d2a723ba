/** Runs of logins and activations, spelt out, that end with a wrong label or a refused config. */
module CredentialExample {
  import opened Results
  import opened GoStrings
  import opened ReportingConfig
  import opened TokenRefresh
  import opened Activation
  import opened ActivationTheorems
  import opened CredentialRuns

  const ENV: Env := Env((id: string) => true, (token: string) => "u", (token: string) => "u")
  const PROTOCOL := Protocol("shadow_v2", "accept", "")

  /** A machine logged in and enrolled with server "a" for account "u". */
  const MACHINE := Machine(
    Stored.Stored(Config("i", "a", "u", 0, "t", "", true, Some(1), PROTOCOL)), Stored.Stored("i"),
    Some(TokenFile("x", "r", 10, "a", "u")), [Issue("t", "a", "u")])

  /** A refresh against server "b", which answers it. */
  const REFRESH := Attempt("b", 0, 0, Some(OAuthResult("y", "r", 7200)), true)

  /** A login after it: "b" accepts the installation and sends no reporter token. */
  const REPLY := Credentials("", true, PROTOCOL)
  const ACTIVATION :=
    ActivateIO(
      EnrollIO(true, "i", true, true, Some(REPLY), None, true), 2, Some(REPLY), true, true, true)
  const LOGIN :=
    LoginIO("b", "", false, true, 0, 0, false, false, None, true, true, true, ACTIVATION)

  lemma Unspaced(s: string)
    requires s != "" && !IsSpaceOrSlash(s[0]) && !IsSpaceOrSlash(s[|s| - 1])
    ensures TrimSpace(s) == s && Canon(s) == s
  {
  }

  lemma ProtocolIsValid()
    ensures PROTOCOL.Valid()
  {
    Unspaced("shadow_v2");
    Unspaced("accept");
  }

  lemma ExampleIsConsistent()
    ensures Consistent(ENV, MACHINE) && Labelled(MACHINE) && HoldsToken(MACHINE)
    ensures HonestSubjects(ENV)
    ensures OnlyFor(MACHINE.issued, "t", "a", "u")
  {
    Unspaced("a");
    Unspaced("u");
    assert Issue("t", "a", "u") in MACHINE.issued;
  }

  lemma ExampleMoves()
    ensures AsksServer(MACHINE.token.value, REFRESH)
    ensures TargetServer("b", MACHINE.token.value) == "b" && !SameServer("b", "a")
    ensures StepMachine(ENV, MACHINE, RefreshStep(REFRESH)) ==
            MACHINE.(token := Some(TokenFile("y", "r", 7200 * SECOND, "b", "u")))
  {
    Unspaced("a");
    Unspaced("b");
    Unspaced("r");
    Unspaced("u");
    assert Lifetime(OAuthResult("y", "r", 7200)) == 7200 * SECOND;
    assert FirstNonEmpty(["u", "u"]) == "u";
  }

  lemma ExampleActivates()
    ensures var moved := MACHINE.(token := Some(TokenFile("y", "r", 7200 * SECOND, "b", "u")));
            ActivatesKeepingToken(ENV, moved, LOGIN)
  {
    Unspaced("b");
    Unspaced("u");
    ProtocolIsValid();
    var moved := MACHINE.(token := Some(TokenFile("y", "r", 7200 * SECOND, "b", "u")));
    var enrolled := Enroll(ENV, moved, Some(UserClient("b", "y")), "b", "u", ACTIVATION.enroll);
    assert LoadOrCreate(ENV, moved, ACTIVATION.enroll) == (moved, Ok(moved.reporting.value));
    assert enrolled.1.Ok?;
  }

  // From a machine whose token is labelled rightly, the run ends with one that is not.
  lemma MislabelledRunExists()
    ensures Consistent(ENV, MACHINE) && HonestSubjects(ENV) && Labelled(MACHINE)
    ensures !Labelled(Run(ENV, MACHINE, [RefreshStep(REFRESH), LoginStep(LOGIN)]))
  {
    ExampleIsConsistent();
    ExampleMoves();
    ExampleActivates();
    RetargetedRefreshMislabels(ENV, MACHINE, REFRESH, LOGIN);
  }

  // ---------------------------------------------------------------- a blank token

  /** An activation of the machine, in which the server sends a reporter token. */
  const SENDING := SendingToken(ACTIVATION, "n")

  lemma SendingSucceeds()
    ensures Activate(ENV, MACHINE, Some(UserClient("a", "x")), "a", "u", SENDING).error.None?
  {
    ProtocolIsValid();
    assert LoadOrCreate(ENV, MACHINE, SENDING.enroll) == (MACHINE, Ok(MACHINE.reporting.value));
    assert Enroll(ENV, MACHINE, Some(UserClient("a", "x")), "a", "u", SENDING.enroll).1.Ok?;
  }

  // The server sends a token of one space: the activation succeeds, and what it stores is
  // never accepted.
  lemma BlankTokenActivates()
    ensures var a := Activate(ENV, MACHINE, Some(UserClient("a", "x")), "a", "u", SendingToken(SENDING, " "));
            && a.error.None?
            && a.machine.reporting.Stored? && a.machine.reporting.value.reporterToken == " "
            && EnabledConfig(a.machine.reporting).None?
  {
    SendingSucceeds();
    var io := SendingToken(SENDING, " ");
    assert " "[1..] == "";
    assert Blank(" ");
    BlankTokenIsActivatedButRefused(ENV, MACHINE, Some(UserClient("a", "x")), "a", "u", SENDING, " ");
    SuccessfulActivationIsEnabled(ENV, MACHINE, Some(UserClient("a", "x")), "a", "u", io);
    SuccessSteps(ENV, MACHINE, Some(UserClient("a", "x")), "a", "u", io);
    EnrollmentAgrees(ENV, MACHINE, Some(UserClient("a", "x")), "a", "u", io.enroll);
  }

  // ---------------------------------------------------------------- an unreadable access token

  /** Subjects cannot be read out of access tokens, though servers know the account. */
  const UNREAD: Env := Env((id: string) => true, (token: string) => "", (token: string) => "u")

  /** A first login on a machine that holds nothing; the server sends a reporter token. */
  const EMPTY := Machine(Missing, Missing, None, [])
  const FIRST_LOGIN :=
    LoginIO("a", "", false, true, 0, 0, false, false, Some(OAuthResult("x", "r", 7200)), true, true, true, SENDING)

  lemma FirstLoginSucceeds()
    ensures LogsInAfresh(UNREAD, EMPTY, FIRST_LOGIN)
  {
    Unspaced("a");
    ProtocolIsValid();
    var token := NewToken(UNREAD, FIRST_LOGIN.oauth.value, "a", 0);
    var before := EMPTY.(token := Some(token));
    assert LoginServer(FIRST_LOGIN) == "a";
    assert Invalidate(EMPTY, "a", token.authSubject, true, true) == Some(EMPTY);
    var created := before.(identity := Stored.Stored("i"), reporting := Stored.Stored(NewConfig("i")));
    assert LoadOrCreate(UNREAD, before, SENDING.enroll) == (created, Ok(NewConfig("i")));
    assert Enroll(UNREAD, before, Some(UserClient("a", "x")), "a", "", SENDING.enroll).1.Ok?;
  }

  // The login leaves a reporter token of the account "u" without a subject beside it.
  lemma UnreadableLoginMislabels()
    ensures Consistent(UNREAD, EMPTY) && HonestSubjects(UNREAD)
    ensures !Labelled(Login(UNREAD, EMPTY, FIRST_LOGIN).0)
  {
    Unspaced("u");
    FirstLoginSucceeds();
    FreshLoginLabelsIff(UNREAD, EMPTY, FIRST_LOGIN);
  }
}
