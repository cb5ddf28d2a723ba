/** What one resolution guarantees, whatever the clock, the cache and the backend do. */
module ResolutionTheorems {
  import opened Results
  import opened GoStrings
  import opened Eligibility
  import opened ReportingConfig
  import opened HookRouting

  /** The resolution gets past the cache and would ask the backend. */
  predicate Consults(env: Env, w: World, git: GitContext, call: Call) {
    && HookBinding(env, w, git, call.authAt).Some?
    && var b := HookBinding(env, w, git, call.authAt).value;
       b.Stable(env.lib) ==>
         && LoadCache(w.cacheFile, call.firstLoadFails).Some?
         && var rec := Lookup(env.lib, LoadCache(w.cacheFile, call.firstLoadFails).value, b, call.now);
            rec.None? || !Decides(w, rec.value)
  }

  predicate Answered(env: Env, w: World, git: GitContext, call: Call)
    requires HookBinding(env, w, git, call.authAt).Some?
  {
    HasResolver(w, HookBinding(env, w, git, call.authAt).value, call.tokenAt) && call.resolveReply.Some?
  }

  /** The record a resolution falls back on. */
  function Stale(env: Env, w: World, git: GitContext, call: Call): Option<Record>
    requires HookBinding(env, w, git, call.authAt).Some?
  {
    var b, cache := HookBinding(env, w, git, call.authAt).value, LoadCache(w.cacheFile, call.firstLoadFails);
    if b.Stable(env.lib) && cache.Some? then LookupStalePositive(env.lib, cache.value, b) else None
  }

  /** The answer that decides a resolution. */
  function FinalAnswer(w: World, call: Call): Option<Response>
    requires call.resolveReply.Some?
  {
    if CreatesRepo(w, call.resolveReply.value) then call.ensureReply else call.resolveReply
  }

  /** The backend's last word is that the hooks may not run for this repository. */
  predicate Refused(w: World, call: Call)
    requires call.resolveReply.Some?
  {
    var final := FinalAnswer(w, call);
    final.Some? && (!final.value.eligible || final.value.repoConfigID == 0)
  }

  lemma ConsultedIsAsked(env: Env, w: World, git: GitContext, call: Call)
    requires Consults(env, w, git, call)
    ensures Resolve(env, w, git, call) ==
            Ask(env, w, git, HookBinding(env, w, git, call.authAt).value, call, Stale(env, w, git, call))
  {
  }

  lemma AnswerIsTheResult(env: Env, w: World, git: GitContext, b: Binding, call: Call, stale: Option<Record>)
    requires HasResolver(w, b, call.tokenAt) && call.resolveReply.Some?
    ensures Ask(env, w, git, b, call, stale).result ==
            if FinalAnswer(w, call).None? then None else AnsweredContext(env, git, b, FinalAnswer(w, call).value)
  {
  }

  lemma AnsweredResult(env: Env, w: World, git: GitContext, call: Call)
    requires Consults(env, w, git, call) && Answered(env, w, git, call)
    ensures Resolve(env, w, git, call).result ==
            if FinalAnswer(w, call).None? then None
            else AnsweredContext(env, git, HookBinding(env, w, git, call.authAt).value, FinalAnswer(w, call).value)
  {
    ConsultedIsAsked(env, w, git, call);
    AnswerIsTheResult(env, w, git, HookBinding(env, w, git, call.authAt).value, call, Stale(env, w, git, call));
  }

  // A resolved event is for the binding of the credentials at hand, names a repository, and
  // may be replayed later exactly when that binding is stable.
  lemma ResolvedContextIsUsable(env: Env, w: World, git: GitContext, call: Call)
    ensures var r := Resolve(env, w, git, call).result;
            r.Some? ==>
              && HookBinding(env, w, git, call.authAt).Some?
              && var b := HookBinding(env, w, git, call.authAt).value;
                 && r.value.serverURL == b.Normalized(env.lib).serverURL
                 && r.value.authSubject == b.Normalized(env.lib).authSubject
                 && r.value.repoConfigID != 0
                 && (r.value.durableReplay <==> b.Stable(env.lib))
  {
    if Consults(env, w, git, call) {
      ConsultedIsAsked(env, w, git, call);
      AskedContextIsUsable(env, w, git, HookBinding(env, w, git, call.authAt).value, call, Stale(env, w, git, call));
    } else if Resolve(env, w, git, call).result.Some? {
      CachedContextIsUsable(env, w, git, call);
    }
  }

  lemma CachedContextIsUsable(env: Env, w: World, git: GitContext, call: Call)
    requires !Consults(env, w, git, call) && Resolve(env, w, git, call).result.Some?
    ensures HookBinding(env, w, git, call.authAt).Some?
    ensures var r, b := Resolve(env, w, git, call).result.value, HookBinding(env, w, git, call.authAt).value;
            && r.serverURL == b.Normalized(env.lib).serverURL && r.authSubject == b.Normalized(env.lib).authSubject
            && r.repoConfigID != 0 && r.durableReplay && b.Stable(env.lib)
  {
    SettledResult(env, w, git, call, HookBinding(env, w, git, call.authAt).value);
  }

  lemma SettledResult(env: Env, w: World, git: GitContext, call: Call, b: Binding)
    requires HookBinding(env, w, git, call.authAt) == Some(b) && !Consults(env, w, git, call)
    ensures b.Stable(env.lib)
    ensures var cache := LoadCache(w.cacheFile, call.firstLoadFails);
            Resolve(env, w, git, call).result ==
            if cache.None? then None
            else
              var rec := Lookup(env.lib, cache.value, b, call.now);
              if rec.Some? && rec.value.eligible && rec.value.repoConfigID != 0
              then Some(CachedContext(env.lib, git, b, rec.value)) else None
  {
  }

  lemma AskedContextIsUsable(env: Env, w: World, git: GitContext, b: Binding, call: Call, stale: Option<Record>)
    requires stale.Some? ==> b.Stable(env.lib) && stale.value.repoConfigID != 0
    ensures var r := Ask(env, w, git, b, call, stale).result;
            r.Some? ==>
              && r.value.serverURL == b.Normalized(env.lib).serverURL
              && r.value.authSubject == b.Normalized(env.lib).authSubject
              && r.value.repoConfigID != 0
              && (r.value.durableReplay <==> b.Stable(env.lib))
  {
    if HasResolver(w, b, call.tokenAt) && call.resolveReply.Some? {
      AnswerIsTheResult(env, w, git, b, call, stale);
    }
  }

  // The id a resolution answers is negative only when the backend itself answered with a
  // negative id; the cache then holds a refusal, although this call goes through (see
  // DecisionMatchesRecordIff).
  lemma NegativeIDsComeFromTheBackend(env: Env, w: World, git: GitContext, call: Call)
    requires Resolve(env, w, git, call).result.Some?
    requires w.cacheFile.Stored? ==> forall k :: k in w.cacheFile.value.negative ==> !w.cacheFile.value.negative[k].eligible
    ensures var id := Resolve(env, w, git, call).result.value.repoConfigID;
            id > 0 || (call.resolveReply.Some? && FinalAnswer(w, call).Some? && id == FinalAnswer(w, call).value.repoConfigID)
  {
    var b := HookBinding(env, w, git, call.authAt).value;
    if Consults(env, w, git, call) {
      if Answered(env, w, git, call) {
        AnsweredResult(env, w, git, call);
      } else {
        ConsultedIsAsked(env, w, git, call);
      }
    } else {
      LookupIsForTheBinding(env.lib, LoadCache(w.cacheFile, call.firstLoadFails).value, b, call.now);
    }
  }

  /** The refusal a hook would store for an answer is among the refusals. */
  predicate HoldsRefusal(lib: Library, c: Cache, b: Binding, remoteURL: string, resp: Response, now: Time) {
    && LookupKey(lib, b) in c.negative
    && c.negative[LookupKey(lib, b)] == NegativeRecord(lib, b, remoteURL, NegativeReason(resp), now)
  }

  // A hook goes on although the cache then holds its answer as a refusal exactly when that
  // answer is eligible and its id negative (or, its id being positive, the very same refusal
  // was there already); it never gives up without the cache holding the refusal.
  lemma DecisionMatchesRecordIff(env: Env, w: World, git: GitContext, call: Call, b: Binding)
    requires HookBinding(env, w, git, call.authAt) == Some(b) && b.Stable(env.lib)
    requires Consults(env, w, git, call) && Answered(env, w, git, call) && FinalAnswer(w, call).Some?
    requires LoadCache(w.cacheFile, call.secondLoadFails).Some? && call.saves
    ensures var final, before := FinalAnswer(w, call).value, LoadCache(w.cacheFile, call.secondLoadFails).value;
            var res := Resolve(env, w, git, call);
            && res.cacheFile.Stored?
            && (res.result.Some? && HoldsRefusal(env.lib, res.cacheFile.value, b, git.remoteURL, final, call.now) <==>
                && final.eligible
                && (|| final.repoConfigID < 0
                    || (final.repoConfigID > 0 && HoldsRefusal(env.lib, before, b, git.remoteURL, final, call.now))))
            && (res.result.None? ==>
                  HoldsRefusal(env.lib, res.cacheFile.value, b, git.remoteURL, final, call.now))
  {
    AnsweredResult(env, w, git, call);
    AnswerIsStored(env, w, git, call, b);
  }

  lemma AnswerIsStored(env: Env, w: World, git: GitContext, call: Call, b: Binding)
    requires HookBinding(env, w, git, call.authAt) == Some(b) && b.Stable(env.lib)
    requires Consults(env, w, git, call) && Answered(env, w, git, call) && FinalAnswer(w, call).Some?
    requires LoadCache(w.cacheFile, call.secondLoadFails).Some? && call.saves
    ensures Resolve(env, w, git, call).cacheFile ==
            Stored.Stored(Remember(
              env.lib, LoadCache(w.cacheFile, call.secondLoadFails).value, b, git.remoteURL,
              FinalAnswer(w, call).value, call.now))
  {
    ConsultedIsAsked(env, w, git, call);
  }

  // Whenever credentials let a resolution begin, an event it does not resolve is looked up
  // and queued under the very binding the resolution used.
  lemma QueueUsesTheSameBinding(env: Env, w: World, git: GitContext, call: Call)
    requires HookBinding(env, w, git, call.authAt).Some?
    ensures SkipBinding(env, AfterResolve(w, Resolve(env, w, git, call)), git) ==
            HookBinding(env, w, git, call.authAt).value
  {
  }

  // An outage loses no known repository: without a fresh record and without an answer, the
  // resolution succeeds exactly when some positive record, however old, is there; it answers
  // that record's repository, and it changes nothing.
  lemma OutageKeepsKnownRepositories(env: Env, w: World, git: GitContext, call: Call)
    requires Consults(env, w, git, call) && !Answered(env, w, git, call)
    ensures var res, stale := Resolve(env, w, git, call), Stale(env, w, git, call);
            && AfterResolve(w, res) == w
            && (res.result.Some? <==> stale.Some?)
            && (stale.Some? ==>
                  && res.result.value.repoConfigID == stale.value.repoConfigID
                  && TrimSpace(stale.value.repoKey) == TrimSpace(git.repoKey)
                  && res.result.value.durableReplay)
  {
    var b := HookBinding(env, w, git, call.authAt).value;
    if b.Stable(env.lib) {
      LookupIsForTheBinding(env.lib, LoadCache(w.cacheFile, call.firstLoadFails).value, b, call.now);
    }
  }

  // An answer decides: once the backend has answered, what the cache held makes no difference
  // to what the resolution answers.
  lemma AnswerDecides(env: Env, w: World, other: Stored<Cache>, git: GitContext, call: Call)
    requires Consults(env, w, git, call) && Answered(env, w, git, call)
    requires Consults(env, w.(cacheFile := other), git, call)
    ensures Resolve(env, w, git, call).result == Resolve(env, w.(cacheFile := other), git, call).result
    ensures var final := FinalAnswer(w, call);
            Resolve(env, w, git, call).result.Some? <==> final.Some? && final.value.eligible && final.value.repoConfigID != 0
  {
    AnsweredResult(env, w, git, call);
    AnsweredResult(env, w.(cacheFile := other), git, call);
  }

  function CacheOf(file: Stored<Cache>): Cache {
    if file.Stored? then file.value else EMPTY_CACHE
  }

  /** Outside the one key of the one map, nothing is different. */
  ghost predicate SameElsewhere<V>(before: map<string, V>, after: map<string, V>, key: string) {
    forall k :: k != key ==> (k in after <==> k in before) && (k in before ==> after[k] == before[k])
  }

  /** One record under the key of a binding's refusals, or one under that of a positive answer. */
  ghost predicate OneRecordStored(lib: Library, before: Cache, after: Cache, b: Binding, resp: Response) {
    if resp.eligible && resp.repoConfigID > 0 then
      && after.negative == before.negative
      && SameElsewhere(before.repos, after.repos, PositiveKey(lib, b, resp))
      && PositiveKey(lib, b, resp) in after.repos
    else
      && after.repos == before.repos
      && SameElsewhere(before.negative, after.negative, LookupKey(lib, b))
      && LookupKey(lib, b) in after.negative
  }

  lemma RememberStoresOne(lib: Library, c: Cache, b: Binding, remoteURL: string, resp: Response, now: Time)
    ensures OneRecordStored(lib, c, Remember(lib, c, b, remoteURL, resp, now), b, resp)
  {
  }

  lemma ChangedMeansStored(env: Env, w: World, git: GitContext, call: Call)
    requires Resolve(env, w, git, call).cacheFile != w.cacheFile
    ensures Consults(env, w, git, call) && Answered(env, w, git, call) && FinalAnswer(w, call).Some?
    ensures HookBinding(env, w, git, call.authAt).value.Stable(env.lib)
    ensures LoadCache(w.cacheFile, call.secondLoadFails) == Some(CacheOf(w.cacheFile)) && call.saves
    ensures Resolve(env, w, git, call).cacheFile ==
            Stored.Stored(Remember(
              env.lib, CacheOf(w.cacheFile), HookBinding(env, w, git, call.authAt).value, git.remoteURL,
              FinalAnswer(w, call).value, call.now))
  {
    assert Consults(env, w, git, call);
    ConsultedIsAsked(env, w, git, call);
  }

  // A resolution changes the cache only when the backend answered it and the binding is
  // stable, and then stores one record for the final answer: a refusal under the binding that
  // asked, or a positive answer under the key of the repository it names.
  lemma OneRecordChanges(env: Env, w: World, git: GitContext, call: Call)
    requires Resolve(env, w, git, call).cacheFile != w.cacheFile
    ensures Consults(env, w, git, call) && Answered(env, w, git, call)
    ensures FinalAnswer(w, call).Some?
    ensures var b := HookBinding(env, w, git, call.authAt).value;
            && b.Stable(env.lib)
            && OneRecordStored(
                 env.lib, CacheOf(w.cacheFile), CacheOf(Resolve(env, w, git, call).cacheFile), b,
                 FinalAnswer(w, call).value)
  {
    var b := HookBinding(env, w, git, call.authAt).value;
    ChangedMeansStored(env, w, git, call);
    RememberStoresOne(env.lib, CacheOf(w.cacheFile), b, git.remoteURL, FinalAnswer(w, call).value, call.now);
  }

  // A positive answer serves later hooks of the binding through an outage exactly when it
  // names no other repository (its URL being settled); otherwise it is stored where the
  // binding never looks, and the repository, though known, is lost to an outage.
  lemma AnsweredRepositoryIsKeptIff(env: Env, w: World, git: GitContext, call: Call, b: Binding)
    requires HookBinding(env, w, git, call.authAt) == Some(b) && b.Stable(env.lib)
    requires Consults(env, w, git, call) && Answered(env, w, git, call)
    requires LoadCache(w.cacheFile, call.secondLoadFails).Some? && call.saves
    requires FinalAnswer(w, call).Some? && FinalAnswer(w, call).value.eligible && FinalAnswer(w, call).value.repoConfigID > 0
    ensures var final, after := FinalAnswer(w, call).value, Resolve(env, w, git, call).cacheFile;
            && after.Stored?
            && (LookupStalePositive(env.lib, after.value, b) == Some(PositiveRecord(env.lib, b, final, call.now)) <==>
                RecordKey(env.lib, b, final) == TrimSpace(b.repoKey) && SettledURL(env.lib, b))
  {
    AnswerIsStored(env, w, git, call, b);
    StoredPositiveIsFoundIff(
      env.lib, LoadCache(w.cacheFile, call.secondLoadFails).value, b, FinalAnswer(w, call).value, call.now);
  }

  lemma RefusalIsStored(env: Env, w: World, git: GitContext, call: Call, b: Binding)
    requires HookBinding(env, w, git, call.authAt) == Some(b) && b.Stable(env.lib)
    requires Consults(env, w, git, call) && Answered(env, w, git, call) && Refused(w, call)
    requires LoadCache(w.cacheFile, call.secondLoadFails).Some? && call.saves
    ensures Resolve(env, w, git, call).result == None
    ensures Resolve(env, w, git, call).cacheFile ==
            Stored.Stored(PutNegative(
              env.lib, LoadCache(w.cacheFile, call.secondLoadFails).value, b, git.remoteURL,
              NegativeReason(FinalAnswer(w, call).value), call.now))
  {
    AnsweredResult(env, w, git, call);
    AnswerIsStored(env, w, git, call, b);
  }

  lemma RefusalDecidesIff(lib: Library, w: World, b: Binding, remoteURL: string, reason: string, now: Time)
    ensures Decides(w, NegativeRecord(lib, b, remoteURL, reason, now)) <==> !(Compact(w) && IsNotFound(reason))
  {
    TrimSpaceIdempotent(reason);
  }

  lemma UnansweredResult(env: Env, w: World, git: GitContext, call: Call, b: Binding)
    requires HookBinding(env, w, git, call.authAt) == Some(b) && b.Stable(env.lib)
    requires !Answered(env, w, git, call) && !call.firstLoadFails && w.cacheFile.Stored?
    ensures var rec := Lookup(env.lib, w.cacheFile.value, b, call.now);
            var stale := LookupStalePositive(env.lib, w.cacheFile.value, b);
            Resolve(env, w, git, call).result ==
            if rec.Some? && Decides(w, rec.value) then
              if rec.value.eligible && rec.value.repoConfigID != 0 then Some(CachedContext(env.lib, git, b, rec.value))
              else None
            else if stale.Some? then Some(CachedContext(env.lib, git, b, stale.value))
            else None
  {
  }

  // Over two calls stale data can beat an authoritative answer: a refusal is stored beside
  // an old positive record and not in place of it. An outage later brings the refused
  // repository back exactly when there is such a record and it is still fresh, the refusal has
  // expired, or the refusal is one that compact mode asks about again.
  lemma RefusedRepositoryComesBackIff(env: Env, w: World, git: GitContext, refused: Call, outage: Call, b: Binding)
    requires HookBinding(env, w, git, refused.authAt) == Some(b) == HookBinding(env, w, git, outage.authAt)
    requires b.Stable(env.lib) && SettledURL(env.lib, b)
    requires Consults(env, w, git, refused) && Answered(env, w, git, refused) && Refused(w, refused)
    requires LoadCache(w.cacheFile, refused.secondLoadFails).Some? && refused.saves && !outage.firstLoadFails
    requires !Answered(env, w, git, outage)
    ensures var after, cache :=
              AfterResolve(w, Resolve(env, w, git, refused)), LoadCache(w.cacheFile, refused.secondLoadFails).value;
            var positive := LookupStalePositive(env.lib, cache, b);
            && Resolve(env, w, git, refused).result == None
            && Resolve(env, after, git, outage).result ==
               if positive.Some? &&
                  (|| !Expired(positive.value.expiresAt, outage.now)
                   || refused.now + NEGATIVE_TTL <= outage.now
                   || (Compact(w) && IsNotFound(NegativeReason(FinalAnswer(w, refused).value))))
               then Some(CachedContext(env.lib, git, b, positive.value)) else None
  {
    var cache := LoadCache(w.cacheFile, refused.secondLoadFails).value;
    var reason := NegativeReason(FinalAnswer(w, refused).value);
    RefusalAnswersBriefly(env.lib, cache, b, git.remoteURL, reason, refused.now, outage.now);
    RefusalIsStored(env, w, git, refused, b);
    var after := AfterResolve(w, Resolve(env, w, git, refused));
    assert after.cacheFile.value == PutNegative(env.lib, cache, b, git.remoteURL, reason, refused.now);
    RefusalDecidesIff(env.lib, after, b, git.remoteURL, reason, refused.now);
    UnansweredResult(env, after, git, outage, b);
  }
}
