/** The hook commands as they run, step by step over the files they read and write. */
module HookRuntime {
  import opened Results
  import opened GoStrings
  import opened Eligibility
  import opened ReportingConfig
  import opened EventQueue
  import opened HookRouting
  import TokenRefresh

  class Runtime {
    const env: Env
    var reporting: Stored<Config>
    var token: Option<TokenRefresh.TokenFile>
    var configuredServer: string
    var apiClient: Option<string>
    var cacheFile: Stored<Cache>
    var queue: seq<UnresolvedEvent>
    ghost var answers: seq<Answer>

    constructor (env: Env, w: World)
      ensures this.env == env && View() == w
    {
      this.env := env;
      reporting, token, configuredServer, apiClient := w.reporting, w.token, w.configuredServer, w.apiClient;
      cacheFile, queue, answers := w.cacheFile, w.queue, w.answers;
    }

    ghost function View(): World
      reads this
    {
      World(reporting, token, configuredServer, apiClient, cacheFile, queue, answers)
    }

    /** resolveHookExecutionContext. */
    method ResolveHookExecutionContext(git: GitContext, call: Call) returns (r: Option<ExecutionContext>)
      modifies this`cacheFile, this`answers
      ensures r == Resolve(env, old(View()), git, call).result
      ensures View() == AfterResolve(old(View()), Resolve(env, old(View()), git, call))
    {
      var config := EnabledConfig(reporting);
      var compact := config.Some?;
      if !compact && (token.None? || !token.value.IsValid(call.authAt)) {
        return None;
      }
      var b: Binding;
      if compact {
        b := Binding(config.value.serverURL, config.value.authSubject, git.repoKey);
      } else {
        var serverURL := token.value.serverURL;
        if configuredServer != "" {
          serverURL := configuredServer;
        }
        b := Binding(serverURL, token.value.StableAuthSubject(env.subjectOf), git.repoKey);
      }
      var stable := b.Stable(env.lib);
      var stale: Option<Record> := None;
      if stable {
        var cache := LoadCache(cacheFile, call.firstLoadFails);
        if cache.None? {
          return None;
        }
        var rec := Lookup(env.lib, cache.value, b, call.now);
        if rec.Some? {
          if !rec.value.eligible || rec.value.repoConfigID == 0 {
            if !compact || !IsNotFound(rec.value.reason) {
              return None;
            }
          } else {
            return Some(CachedContext(env.lib, git, b, rec.value));
          }
        }
        stale := LookupStalePositive(env.lib, cache.value, b);
      }
      r := AskBackend(git, b, call, stale);
    }

    /** The part of a resolution that asks the backend, falling back on the stale record. */
    method AskBackend(git: GitContext, b: Binding, call: Call, stale: Option<Record>) returns (r: Option<ExecutionContext>)
      requires Compact(View()) || token.Some?
      modifies this`cacheFile, this`answers
      ensures r == Ask(env, old(View()), git, b, call, stale).result
      ensures View() == AfterResolve(old(View()), Ask(env, old(View()), git, b, call, stale))
    {
      var config := EnabledConfig(reporting);
      var compact := config.Some?;
      var resolver;
      if compact {
        resolver := !Blank(b.serverURL) && !Blank(config.value.reporterToken);
      } else {
        var resolverToken := "";
        if token.value.IsValid(call.tokenAt) {
          resolverToken := token.value.accessToken;
        }
        resolver := (apiClient.Some? && !Blank(apiClient.value)) || (!Blank(b.serverURL) && !Blank(resolverToken));
      }
      if !resolver || call.resolveReply.None? {
        return if stale.Some? then Some(CachedContext(env.lib, git, b, stale.value)) else None;
      }
      var resp := call.resolveReply.value;
      if compact && !resp.eligible && IsNotFound(resp.reason) {
        answers := answers + [Answer(b, git.remoteURL, resp, call.now)];
        if call.ensureReply.None? {
          return None;
        }
        resp := call.ensureReply.value;
      }
      r := SettleAnswer(git, b, call, resp);
    }

    /** The end of a resolution that got an answer: it is stored, and it decides. */
    method SettleAnswer(git: GitContext, b: Binding, call: Call, resp: Response) returns (r: Option<ExecutionContext>)
      modifies this`cacheFile, this`answers
      ensures r == Settle(env, old(View()), git, b, call, resp).result
      ensures View() == AfterResolve(old(View()), Settle(env, old(View()), git, b, call, resp))
    {
      answers := answers + [Answer(b, git.remoteURL, resp, call.now)];
      var stable := b.Stable(env.lib);
      if stable {
        var cache := LoadCache(cacheFile, call.secondLoadFails);
        if cache.Some? {
          var updated := cache.value;
          if resp.eligible && resp.repoConfigID > 0 {
            updated := PutPositive(env.lib, updated, b, resp, call.now);
          } else {
            var reason := TrimSpace(resp.reason);
            if reason == "" {
              reason := "not_found";
            }
            updated := PutNegative(env.lib, updated, b, git.remoteURL, reason, call.now);
          }
          if call.saves {
            cacheFile := Stored.Stored(updated);
          }
        }
      }
      if !resp.eligible || resp.repoConfigID == 0 {
        return None;
      }
      return Some(ContextFrom(
        env.lib, git, b, resp.repoConfigID, FirstNonEmpty([resp.repoKey, git.repoKey]), TrimSpace(resp.fullName),
        stable));
    }

    method UnresolvedHookBinding() returns (serverURL: string, authSubject: string)
      ensures (serverURL, authSubject) == UnresolvedBinding(env, View())
    {
      var config := EnabledConfig(reporting);
      if config.Some? {
        return config.value.serverURL, config.value.authSubject;
      }
      if token.None? {
        return "", "";
      }
      serverURL := token.value.serverURL;
      if configuredServer != "" {
        serverURL := configuredServer;
      }
      return serverURL, token.value.StableAuthSubject(env.subjectOf);
    }

    method ShouldSkipUnresolvedHookQueue(b: Binding, at: Time, loadFails: bool) returns (skip: bool)
      ensures skip == ShouldSkip(env, View(), b, at, loadFails)
    {
      if !b.Stable(env.lib) {
        return false;
      }
      var cache := LoadCache(cacheFile, loadFails);
      if cache.None? {
        return false;
      }
      var rec := Lookup(env.lib, cache.value, b, at);
      if rec.Some? && IsNotFound(rec.value.reason) {
        if EnabledConfig(reporting).Some? {
          return false;
        }
      }
      return rec.Some? && !rec.value.eligible;
    }

    /** EnqueueUnresolvedHookEvent: the scan for the event's key, then the append. */
    method EnqueueUnresolvedHookEvent(e: UnresolvedEvent, fails: bool) returns (entry: Entry)
      modifies this`queue
      ensures (queue, entry) == Enqueue(DedupeKey, old(queue), e, ValidEvent(e) && !fails)
    {
      var valid := ValidEvent(e);
      if !valid || fails {
        return Lost;
      }
      var known := FindKey(DedupeKey(e));
      if known {
        return AlreadyQueued;
      }
      queue := queue + [e];
      return Queued;
    }

    method FindKey(k: Key) returns (found: bool)
      ensures found == HasKey(DedupeKey, queue, k)
    {
      for i := 0 to |queue|
        invariant forall j :: 0 <= j < i ==> DedupeKey(queue[j]) != k
      {
        if DedupeKey(queue[i]) == k {
          return true;
        }
      }
      return false;
    }

    method QueueUnresolvedPostCommit(git: GitContext, c: Commit) returns (fate: Fate)
      modifies this`queue
      ensures (queue, fate) == QueueCommit(env, old(View()), git, c)
    {
      if Blank(git.repoRoot) {
        return Sent(Lost);
      }
      if c.head.None? {
        return Sent(Lost);
      }
      var serverURL, authSubject := UnresolvedHookBinding();
      var skip := ShouldSkipUnresolvedHookQueue(Binding(serverURL, authSubject, git.repoKey), c.at, c.loadFails);
      if skip {
        return Dropped;
      }
      var entry := EnqueueUnresolvedHookEvent(
        UnresolvedEvent(
          "post-commit", git.remoteURL, git.repoKey, git.workspaceID, serverURL, authSubject,
          c.head.value, c.parentSHAs, FirstNonEmpty([git.branch, c.branchSnapshot]), "", "", "", c.capturedAt),
        c.enqueueFails);
      return Sent(entry);
    }

    method QueueUnresolvedPostRewrite(git: GitContext, r: Rewrite) returns (fates: seq<Fate>)
      modifies this`queue
      ensures (queue, fates) == QueueRewrite(env, old(View()), git, r)
    {
      var pairs := r.Pairs();
      if Blank(r.rewriteType) {
        return Repeat(Sent(Lost), |pairs|);
      }
      var serverURL, authSubject := UnresolvedHookBinding();
      var skip := ShouldSkipUnresolvedHookQueue(Binding(serverURL, authSubject, git.repoKey), r.at, r.loadFails);
      if skip {
        return Repeat(Dropped, |pairs|);
      }
      ghost var events := RewriteEvents(env, old(View()), git, r);
      ghost var ok := Accepted(events, r);
      var entries: seq<Entry> := [];
      for i := 0 to |pairs|
        invariant (queue, entries) == EnqueueAll(DedupeKey, old(queue), events[..i], ok[..i])
      {
        var entry := EnqueueUnresolvedHookEvent(
          UnresolvedEvent(
            "post-rewrite", git.remoteURL, git.repoKey, git.workspaceID, serverURL, authSubject,
            "", [], "", TrimSpace(r.rewriteType), TrimSpace(pairs[i].0), TrimSpace(pairs[i].1), r.capturedAt),
          r.enqueueFails(i));
        entries := entries + [entry];
        EnqueueOneMore(DedupeKey, old(queue), events, ok, i);
      }
      assert events[..|pairs|] == events && ok[..|pairs|] == ok;
      return AllSent(entries);
    }

    /** The post-commit command. */
    method HookPostCommit(git: GitContext, call: Call, c: Commit) returns (fate: Fate)
      modifies this`cacheFile, this`queue, this`answers
      ensures (View(), fate) == PostCommit(env, old(View()), git, call, c)
    {
      var context := ResolveHookExecutionContext(git, call);
      if context.None? {
        fate := QueueUnresolvedPostCommit(git, c);
        return;
      }
      return Handled(context.value);
    }

    /** The post-rewrite command. */
    method HookPostRewrite(git: GitContext, call: Call, r: Rewrite) returns (fates: seq<Fate>)
      modifies this`cacheFile, this`queue, this`answers
      ensures (View(), fates) == PostRewrite(env, old(View()), git, call, r)
    {
      var context := ResolveHookExecutionContext(git, call);
      if context.None? {
        fates := QueueUnresolvedPostRewrite(git, r);
        return;
      }
      return Repeat(Handled(context.value), |r.Pairs()|);
    }
  }
}
