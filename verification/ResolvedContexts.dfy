/** Which binding a resolution uses, when it asks the backend, and which repository it answers. */
module ResolvedContexts {
  import opened Results
  import opened GoStrings
  import opened Eligibility
  import opened ReportingConfig
  import opened HookRouting
  import opened ResolutionTheorems
  import TokenRefresh

  // The binding is that of the reporting config in compact mode; otherwise that of a valid
  // login, whose server the configured one takes precedence over.
  lemma BindingMeaning(env: Env, w: World, git: GitContext, at: Time)
    ensures var b, config := HookBinding(env, w, git, at), EnabledConfig(w.reporting);
            && (b.None? <==>
                  config.None? &&
                  (w.token.None? || w.token.value.accessToken == "" || w.token.value.expiresAt <= at))
            && (b.Some? ==>
                  && b.value.repoKey == git.repoKey
                  && (config.Some? ==>
                        b.value.serverURL == config.value.serverURL && b.value.authSubject == config.value.authSubject)
                  && (config.None? ==>
                        && w.token.Some?
                        && (w.configuredServer != "" ==> b.value.serverURL == w.configuredServer)
                        && (w.configuredServer == "" ==> b.value.serverURL == w.token.value.serverURL)
                        && (TrimSpace(w.token.value.authSubject) != "" ==>
                              b.value.authSubject == TrimSpace(w.token.value.authSubject))
                        && (TrimSpace(w.token.value.authSubject) == "" ==>
                              b.value.authSubject == env.subjectOf(w.token.value.accessToken))))
  {
  }

  // A config counts when it is whole: enabled, with a token, and a protocol of one of the two
  // kinds.
  lemma CompactMeaning(file: Stored<Config>)
    ensures EnabledConfig(file).Some? <==>
            && file.Stored? && file.value.reportingEnabled && TrimSpace(file.value.reporterToken) != ""
            && var p := file.value.protocol;
               || (&& TrimSpace(p.ledgerEpoch) == "shadow_v2" && TrimSpace(p.v1WritePolicy) == "accept"
                   && TrimSpace(p.minimumCLIVersion) == "")
               || (&& TrimSpace(p.ledgerEpoch) in {"shadow_v2", "formal_v2"}
                   && TrimSpace(p.v1WritePolicy) == "upgrade_required" && TrimSpace(p.minimumCLIVersion) != "")
    ensures EnabledConfig(file).Some? ==> file == Stored.Stored(EnabledConfig(file).value)
  {
  }

  /** Credentials to ask the backend with. */
  predicate MayAsk(w: World, b: Binding, at: Time) {
    if EnabledConfig(w.reporting).Some? then TrimSpace(b.serverURL) != ""
    else
      || (w.apiClient.Some? && TrimSpace(w.apiClient.value) != "")
      || (&& TrimSpace(b.serverURL) != "" && w.token.Some? && at < w.token.value.expiresAt
          && TrimSpace(w.token.value.accessToken) != "")
  }

  /** The cache settles it: a fresh record that grants, or one that refuses and is not to be asked about again. */
  predicate CacheSettles(w: World, rec: Option<Record>) {
    && rec.Some?
    && ((rec.value.eligible && rec.value.repoConfigID != 0) ||
        EnabledConfig(w.reporting).None? || TrimSpace(rec.value.reason) != "not_found")
  }

  /** Neither the cache nor its absence settles the resolution. */
  predicate Unsettled(env: Env, w: World, call: Call, b: Binding) {
    b.Stable(env.lib) ==>
      && LoadCache(w.cacheFile, call.firstLoadFails).Some?
      && !CacheSettles(w, Lookup(env.lib, LoadCache(w.cacheFile, call.firstLoadFails).value, b, call.now))
  }

  predicate GetsReply(w: World, call: Call, b: Binding) {
    MayAsk(w, b, call.tokenAt) && call.resolveReply.Some?
  }

  lemma SameConditions(env: Env, w: World, git: GitContext, call: Call, b: Binding)
    requires HookBinding(env, w, git, call.authAt) == Some(b)
    ensures Unsettled(env, w, call, b) <==> Consults(env, w, git, call)
    ensures GetsReply(w, call, b) <==> Answered(env, w, git, call)
  {
    BlankTokens(w);
  }

  // The backend is asked, and its answers noted, exactly when there are credentials, the cache
  // can be read and does not settle it, and a reply comes; a second answer exactly when
  // compact mode goes on to create a repository the first one does not know.
  lemma AskedIff(env: Env, w: World, git: GitContext, call: Call, b: Binding)
    requires HookBinding(env, w, git, call.authAt) == Some(b)
    ensures Resolve(env, w, git, call).answers ==
            if !(Unsettled(env, w, call, b) && GetsReply(w, call, b)) then w.answers
            else
              var first := call.resolveReply.value;
              w.answers + [Answer(b, git.remoteURL, first, call.now)] +
              if EnabledConfig(w.reporting).Some? && !first.eligible && TrimSpace(first.reason) == "not_found" &&
                 call.ensureReply.Some?
              then [Answer(b, git.remoteURL, call.ensureReply.value, call.now)] else []
  {
    SameConditions(env, w, git, call, b);
    if Consults(env, w, git, call) {
      ConsultedIsAsked(env, w, git, call);
      AskedAnswers(env, w, git, b, call, Stale(env, w, git, call));
    }
  }

  lemma BlankTokens(w: World)
    ensures TrimSpace("") == ""
    ensures EnabledConfig(w.reporting).Some? ==> TrimSpace(EnabledConfig(w.reporting).value.reporterToken) != ""
  {
  }

  lemma AskedAnswers(env: Env, w: World, git: GitContext, b: Binding, call: Call, stale: Option<Record>)
    ensures Ask(env, w, git, b, call, stale).answers ==
            if !GetsReply(w, call, b) then w.answers
            else
              var first := call.resolveReply.value;
              w.answers + [Answer(b, git.remoteURL, first, call.now)] +
              if EnabledConfig(w.reporting).Some? && !first.eligible && TrimSpace(first.reason) == "not_found" &&
                 call.ensureReply.Some?
              then [Answer(b, git.remoteURL, call.ensureReply.value, call.now)] else []
  {
  }

  /** The context of this binding in this work tree. */
  predicate ContextOf(lib: Library, git: GitContext, b: Binding, c: ExecutionContext) {
    && c.serverURL == NormalizeServerURL(lib, b.serverURL) && c.authSubject == TrimSpace(b.authSubject)
    && c.workspaceID == git.workspaceID && c.repoRoot == git.repoRoot && c.branch == git.branch
  }

  /** What the backend said last: the reply about the repository, or about its creation where that was asked for. */
  function LastReply(w: World, call: Call): Option<Response>
    requires call.resolveReply.Some?
  {
    var first := call.resolveReply.value;
    if EnabledConfig(w.reporting).Some? && !first.eligible && TrimSpace(first.reason) == "not_found"
    then call.ensureReply else call.resolveReply
  }

  // An answer that grants a repository resolves to that repository.
  lemma AnswerNamesTheRepository(env: Env, w: World, git: GitContext, call: Call, b: Binding)
    requires HookBinding(env, w, git, call.authAt) == Some(b)
    requires Unsettled(env, w, call, b) && GetsReply(w, call, b)
    ensures var reply, r := LastReply(w, call), Resolve(env, w, git, call).result;
            if reply.None? || !reply.value.eligible || reply.value.repoConfigID == 0 then r.None?
            else
              && r.Some? && ContextOf(env.lib, git, b, r.value)
              && r.value.repoConfigID == reply.value.repoConfigID
              && r.value.repoKey == (if TrimSpace(reply.value.repoKey) != "" then TrimSpace(reply.value.repoKey)
                                     else TrimSpace(git.repoKey))
              && r.value.repoFullName == TrimSpace(reply.value.fullName)
              && (r.value.durableReplay <==> b.Stable(env.lib))
  {
    SameConditions(env, w, git, call, b);
    AnsweredResult(env, w, git, call);
    if FinalAnswer(w, call).Some? {
      FirstOfTwo(FinalAnswer(w, call).value.repoKey, git.repoKey);
    }
  }

  /** The context names the repository of the record. */
  predicate NamesRecord(c: ExecutionContext, rec: Record) {
    && c.repoConfigID == rec.repoConfigID && c.repoKey == rec.repoKey && c.repoFullName == rec.fullName
    && c.durableReplay
  }

  // A fresh record decides without a question: one that grants resolves to its repository.
  lemma FreshRecordNamesTheRepository(env: Env, w: World, git: GitContext, call: Call, b: Binding, rec: Record)
    requires HookBinding(env, w, git, call.authAt) == Some(b) && b.Stable(env.lib)
    requires LoadCache(w.cacheFile, call.firstLoadFails).Some?
    requires Lookup(env.lib, LoadCache(w.cacheFile, call.firstLoadFails).value, b, call.now) == Some(rec)
    requires CacheSettles(w, Some(rec))
    ensures var r := Resolve(env, w, git, call).result;
            && AfterResolve(w, Resolve(env, w, git, call)) == w
            && (r.Some? <==> rec.eligible && rec.repoConfigID != 0)
            && (r.Some? ==> ContextOf(env.lib, git, b, r.value) && NamesRecord(r.value, rec))
  {
  }

  // Without an answer, the positive record there is, however old, resolves to its repository.
  lemma StaleRecordNamesTheRepository(env: Env, w: World, git: GitContext, call: Call, b: Binding)
    requires HookBinding(env, w, git, call.authAt) == Some(b)
    requires Unsettled(env, w, call, b) && !GetsReply(w, call, b)
    ensures var r := Resolve(env, w, git, call).result;
            var stale := if !b.Stable(env.lib) then None
                         else LookupStalePositive(env.lib, LoadCache(w.cacheFile, call.firstLoadFails).value, b);
            && AfterResolve(w, Resolve(env, w, git, call)) == w
            && (r.Some? <==> stale.Some?)
            && (r.Some? ==> ContextOf(env.lib, git, b, r.value) && NamesRecord(r.value, stale.value))
  {
    SameConditions(env, w, git, call, b);
    ConsultedIsAsked(env, w, git, call);
  }

  // The cache is written exactly when a reply comes, the binding is stable and the file can be
  // read and written; then the reply is stored as a grant or as a refusal.
  lemma CacheIsWrittenIff(env: Env, w: World, git: GitContext, call: Call, b: Binding)
    requires HookBinding(env, w, git, call.authAt) == Some(b)
    ensures var cache := LoadCache(w.cacheFile, call.secondLoadFails);
            Resolve(env, w, git, call).cacheFile ==
            if && Unsettled(env, w, call, b) && GetsReply(w, call, b) && LastReply(w, call).Some?
               && b.Stable(env.lib) && cache.Some? && call.saves
            then
              var reply := LastReply(w, call).value;
              Stored.Stored(
                if reply.eligible && reply.repoConfigID > 0 then PutPositive(env.lib, cache.value, b, reply, call.now)
                else
                  PutNegative(
                    env.lib, cache.value, b, git.remoteURL,
                    if TrimSpace(reply.reason) == "" then "not_found" else TrimSpace(reply.reason), call.now))
            else w.cacheFile
  {
    SameConditions(env, w, git, call, b);
    if Consults(env, w, git, call) {
      ConsultedIsAsked(env, w, git, call);
    }
  }

  // A file that is missing holds no records, and one that is not corrupt is read as it is.
  lemma CacheFileMeaning(file: Stored<Cache>)
    ensures LoadCache(file, true).None?
    ensures LoadCache(file, false).None? <==> file.Corrupt?
    ensures file.Missing? ==> LoadCache(file, false) == Some(Cache(map[], map[]))
    ensures file.Stored? ==> LoadCache(file, false) == Some(file.value)
  {
  }

  // Without a usable login, or when the cache cannot be read, nothing is resolved or changed.
  lemma NothingToGoBy(env: Env, w: World, git: GitContext, call: Call)
    requires HookBinding(env, w, git, call.authAt).None? ||
             (HookBinding(env, w, git, call.authAt).value.Stable(env.lib) &&
              LoadCache(w.cacheFile, call.firstLoadFails).None?)
    ensures Resolve(env, w, git, call).result.None? && AfterResolve(w, Resolve(env, w, git, call)) == w
  {
  }
}
