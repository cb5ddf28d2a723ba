/** The login token kept in ~/.ae-cli/token.json and its refresh before a command runs. */
module TokenRefresh {
  import opened Results
  import opened GoStrings

  /** Instants and durations are counted in nanoseconds. */
  const SECOND: int := 1_000_000_000
  const MINUTE: int := 60 * SECOND

  /** Go's int and time.Duration on a 64-bit machine. */
  type Int64 = x: int | -0x8000_0000_0000_0000 <= x < 0x8000_0000_0000_0000

  /** The value a 64-bit multiplication leaves of a product. */
  function Wrap64(x: int): Int64 {
    (x + 0x8000_0000_0000_0000) % 0x1_0000_0000_0000_0000 - 0x8000_0000_0000_0000
  }

  /** time.Duration(seconds) * time.Second. */
  function Seconds(seconds: Int64): Int64 {
    Wrap64(seconds * SECOND)
  }

  /** How a subject is read out of an access token; the JWT payload is not part of this model. */
  type SubjectReader = string -> string

  datatype TokenFile = TokenFile(
    accessToken: string, refreshToken: string, expiresAt: int, serverURL: string, authSubject: string)
  {
    predicate IsValid(now: int) {
      accessToken != "" && now < expiresAt
    }

    predicate NeedsRefresh(now: int) {
      expiresAt - now < 5 * MINUTE
    }

    function StableAuthSubject(subjectOf: SubjectReader): string {
      if !Blank(authSubject) then TrimSpace(authSubject) else subjectOf(accessToken)
    }
  }

  datatype OAuthResult = OAuthResult(accessToken: string, refreshToken: string, expiresIn: Int64)

  const DEFAULT_LIFETIME: Int64 := 7200

  function Lifetime(reply: OAuthResult): Int64 {
    Seconds(if reply.expiresIn <= 0 then DEFAULT_LIFETIME else reply.expiresIn)
  }

  function TargetServer(serverURL: string, tf: TokenFile): string {
    if !Blank(serverURL) then TrimSpace(serverURL) else TrimSpace(tf.serverURL)
  }

  /** The token file a refresh reply leads to. */
  function Renewed(tf: TokenFile, target: string, reply: OAuthResult, now: int, subjectOf: SubjectReader): TokenFile {
    TokenFile(
      reply.accessToken,
      if Blank(reply.refreshToken) then tf.refreshToken else TrimSpace(reply.refreshToken),
      now + Lifetime(reply),
      target,
      FirstNonEmpty([subjectOf(reply.accessToken), tf.StableAuthSubject(subjectOf)]))
  }

  /** What one call sees: the clock before and after the request, the server's answer, the disk. */
  datatype Attempt = Attempt(serverURL: string, now: int, later: int, reply: Option<OAuthResult>, writes: bool)

  predicate AsksServer(tf: TokenFile, a: Attempt) {
    && !(tf.IsValid(a.now) && !tf.NeedsRefresh(a.now))
    && TargetServer(a.serverURL, tf) != ""
    && !Blank(tf.refreshToken)
  }

  /** The token answered (with the instant it was judged at) and the file left on disk. */
  datatype Outcome = Outcome(token: Option<TokenFile>, judgedAt: int, file: Option<TokenFile>)

  function Refresh(file: Option<TokenFile>, a: Attempt, subjectOf: SubjectReader): Outcome {
    if file.None? then Outcome(None, a.now, file)
    else
      var tf := file.value;
      if !AsksServer(tf, a) then
        Outcome(if tf.IsValid(a.now) then file else None, a.now, file)
      else if a.reply.None? then
        Outcome(if tf.IsValid(a.later) then file else None, a.later, file)
      else
        var next := Renewed(tf, TargetServer(a.serverURL, tf), a.reply.value, a.later, subjectOf);
        Outcome(Some(next), a.later, if a.writes then Some(next) else file)
  }

  class TokenStore {
    var file: Option<TokenFile>
    const subjectOf: SubjectReader

    constructor (file: Option<TokenFile>, subjectOf: SubjectReader)
      ensures this.file == file && this.subjectOf == subjectOf
    {
      this.file := file;
      this.subjectOf := subjectOf;
    }

    /** resolveTokenFileWithRefresh. */
    method ResolveTokenFileWithRefresh(a: Attempt) returns (token: Option<TokenFile>)
      modifies this`file
      ensures Refresh(old(file), a, subjectOf).file == file
      ensures Refresh(old(file), a, subjectOf).token == token
    {
      if file.None? {
        return None;
      }
      var tf := file.value;
      if tf.IsValid(a.now) && !tf.NeedsRefresh(a.now) {
        return file;
      }
      var target := TrimSpace(a.serverURL);
      if target == "" {
        target := TrimSpace(tf.serverURL);
      }
      if target == "" || Blank(tf.refreshToken) {
        return if tf.IsValid(a.now) then file else None;
      }
      if a.reply.None? {
        return if tf.IsValid(a.later) then file else None;
      }
      var next := Renew(tf, target, a.reply.value, a.later);
      if a.writes {
        file := Some(next);
      }
      return Some(next);
    }

    /** The new token file, put together field by field. */
    method Renew(tf: TokenFile, target: string, refreshed: OAuthResult, later: int) returns (next: TokenFile)
      ensures next == Renewed(tf, target, refreshed, later, subjectOf)
    {
      var nextRefreshToken := TrimSpace(refreshed.refreshToken);
      if nextRefreshToken == "" {
        nextRefreshToken := tf.refreshToken;
      }
      var expiresIn := refreshed.expiresIn;
      if expiresIn <= 0 {
        expiresIn := DEFAULT_LIFETIME;
      }
      return TokenFile(
        refreshed.accessToken, nextRefreshToken, later + Seconds(expiresIn), target,
        FirstNonEmpty([subjectOf(refreshed.accessToken), tf.StableAuthSubject(subjectOf)]));
    }
  }

  /** The file after a sequence of commands, each of which refreshes first. */
  function RefreshAll(file: Option<TokenFile>, attempts: seq<Attempt>, subjectOf: SubjectReader): Option<TokenFile>
    decreases |attempts|
  {
    if attempts == [] then file
    else RefreshAll(Refresh(file, attempts[0], subjectOf).file, attempts[1..], subjectOf)
  }

  ghost predicate StaysNonBlank(before: string, after: string) {
    !Blank(before) ==> !Blank(after)
  }

  ghost predicate CredentialsKept(before: TokenFile, after: TokenFile) {
    && StaysNonBlank(before.refreshToken, after.refreshToken)
    && StaysNonBlank(before.authSubject, after.authSubject)
    && StaysNonBlank(before.serverURL, after.serverURL)
  }

  lemma RenewalKeepsCredentials(
      tf: TokenFile, target: string, reply: OAuthResult, now: int, subjectOf: SubjectReader)
    requires !Blank(target)
    ensures CredentialsKept(tf, Renewed(tf, target, reply, now, subjectOf))
  {
    TrimSpaceIdempotent(reply.refreshToken);
    var subjects := [subjectOf(reply.accessToken), tf.StableAuthSubject(subjectOf)];
    FirstNonEmptyBlank(subjects);
    if !Blank(tf.authSubject) {
      TrimSpaceIdempotent(tf.authSubject);
      assert !Blank(subjects[1]);
    }
  }

  // Over any sequence of refreshes the file stays, and a refresh token, a subject or a server
  // that is not blank never becomes blank.
  lemma {:induction false} CredentialsSurvive(file: TokenFile, attempts: seq<Attempt>, subjectOf: SubjectReader)
    ensures var last := RefreshAll(Some(file), attempts, subjectOf);
            last.Some? && CredentialsKept(file, last.value)
    decreases |attempts|
  {
    if attempts != [] {
      var a := attempts[0];
      var step := Refresh(Some(file), a, subjectOf).file;
      if step != Some(file) {
        var target := TargetServer(a.serverURL, file);
        TrimSpaceIdempotent(a.serverURL);
        TrimSpaceIdempotent(file.serverURL);
        RenewalKeepsCredentials(file, target, a.reply.value, a.later, subjectOf);
      }
      CredentialsSurvive(step.value, attempts[1..], subjectOf);
    }
  }

  /** The token has five minutes left. */
  predicate HasTime(tf: TokenFile, now: int) {
    tf.accessToken != "" && now + 300_000_000_000 <= tf.expiresAt
  }

  // The server is asked only when less than five minutes are left, a server is known and there
  // is a refresh token; the token on disk is given back while it is valid.
  lemma AskedOnlyWhenDue(file: TokenFile, a: Attempt, subjectOf: SubjectReader)
    ensures AsksServer(file, a) <==>
            && !HasTime(file, a.now) && TrimSpace(file.refreshToken) != ""
            && (TrimSpace(a.serverURL) != "" || TrimSpace(file.serverURL) != "")
    ensures !AsksServer(file, a) ==>
              var o := Refresh(Some(file), a, subjectOf);
              && o.file == Some(file)
              && o.token == if file.accessToken != "" && a.now < file.expiresAt then Some(file) else None
  {
  }

  // The new token is what the server sent, for the server that was asked: its refresh token,
  // or else the old one, its lifetime in seconds, two hours when it says none, and the subject
  // of the new access token, or else the old one. It is given out, and written if it can be.
  lemma RenewedMeaning(file: TokenFile, a: Attempt, subjectOf: SubjectReader)
    requires AsksServer(file, a) && a.reply.Some?
    ensures var o := Refresh(Some(file), a, subjectOf);
            o.token.Some? && o.file == (if a.writes then o.token else Some(file))
    ensures var t, reply := Refresh(Some(file), a, subjectOf).token.value, a.reply.value;
            var read, kept := TrimSpace(subjectOf(reply.accessToken)), TrimSpace(file.authSubject);
            && t.accessToken == reply.accessToken
            && t.refreshToken ==
               (if TrimSpace(reply.refreshToken) != "" then TrimSpace(reply.refreshToken) else file.refreshToken)
            && (reply.expiresIn <= 0 ==> t.expiresAt == a.later + 7_200_000_000_000)
            && (0 < reply.expiresIn <= 9_223_372_036 ==> t.expiresAt == a.later + reply.expiresIn * 1_000_000_000)
            && t.serverURL ==
               (if TrimSpace(a.serverURL) != "" then TrimSpace(a.serverURL) else TrimSpace(file.serverURL))
            && t.authSubject ==
               (if read != "" then read else if kept != "" then kept else TrimSpace(subjectOf(file.accessToken)))
  {
    FirstOfTwo(subjectOf(a.reply.value.accessToken), file.StableAuthSubject(subjectOf));
    TrimSpaceIdempotent(file.authSubject);
    if a.reply.value.expiresIn <= 9_223_372_036 {
      ShortLifetimesFit(a.reply.value);
    }
  }

  // Without an answer from the server, nothing is written, and the token on disk is given
  // back exactly when it is still valid at the moment it is judged.
  lemma FailedRefreshLosesNothing(file: TokenFile, a: Attempt, subjectOf: SubjectReader)
    requires AsksServer(file, a) ==> a.reply.None?
    ensures var o := Refresh(Some(file), a, subjectOf);
            && o.file == Some(file)
            && o.judgedAt == (if AsksServer(file, a) then a.later else a.now)
            && (o.token == Some(file) <==> file.accessToken != "" && o.judgedAt < file.expiresAt)
            && (o.token == Some(file) <==> file.IsValid(o.judgedAt))
            && (o.token == None <==> !file.IsValid(o.judgedAt))
  {
  }

  // A token that was given out expires in the future, except after a refresh whose lifetime,
  // counted in nanoseconds, does not fit in 64 bits as a positive number.
  lemma AnsweredTokenExpiresLater(file: Option<TokenFile>, a: Attempt, subjectOf: SubjectReader)
    ensures var o := Refresh(file, a, subjectOf);
            o.token.Some? ==>
              (o.judgedAt < o.token.value.expiresAt <==>
               !(AsksServer(file.value, a) && a.reply.Some? && Lifetime(a.reply.value) <= 0))
  {
  }

  // Up to 9223372036 seconds (292 years) the lifetime is what the server said.
  lemma ShortLifetimesFit(reply: OAuthResult)
    requires reply.expiresIn <= 9_223_372_036
    ensures Lifetime(reply) == (if reply.expiresIn <= 0 then 7200 else reply.expiresIn) * SECOND > 0
  {
  }

  // One second more wraps round: the new token is on disk with an expiry in the past.
  lemma LongLifetimeExpiresAtOnce(file: TokenFile, a: Attempt, subjectOf: SubjectReader)
    requires AsksServer(file, a) && a.writes
    requires a.reply.Some? && a.reply.value.expiresIn == 9_223_372_037
    ensures var o := Refresh(Some(file), a, subjectOf);
            o.token.Some? && o.file == o.token && o.token.value.expiresAt < o.judgedAt
  {
  }
}
