/** One run of the hooks, spelt out: a refused repository is dropped, and later comes back. */
module HookExample {
  import opened Results
  import opened GoStrings
  import opened Eligibility
  import opened ReportingConfig
  import opened EventQueue
  import opened HookRouting
  import opened ResolutionTheorems
  import opened HookRuns

  const LIBRARY: Library := Library((s: string) => None, (u: URL) => "", (s: string) => s, (s: string) => s)
  const ENV: Env := Env(LIBRARY, (token: string) => "u")

  const GIT := GitContext("/r", "o", "main", "w", "r")
  const BINDING := Binding("s", "u", "r")
  const CONFIG := Config("i", "s", "u", 0, "t", "", true, Some(1), Protocol("formal_v2", "upgrade_required", "1"))

  const GRANT := Response(true, 7, "", "", "", "", "", "")
  const REFUSAL := Response(false, 0, "", "", "", "", "", "revoked")

  /** The backend has granted the repository, and the answer is in the cache. */
  const START := World(
    Stored.Stored(CONFIG), None, "", None, Stored.Stored(PutPositive(LIBRARY, EMPTY_CACHE, BINDING, GRANT, 1)), [],
    [Answer(BINDING, "o", GRANT, 1)])

  /** Two days later the backend refuses it. */
  const REFUSED_AT: Time := 2 * POSITIVE_TTL
  const REFUSED := Call(0, REFUSED_AT, 0, Some(REFUSAL), None, false, false, true)
  const FIRST := Commit(Some("c"), [], "main", "", REFUSED_AT + 1, false, false)

  /** Five minutes later the backend cannot be reached. */
  const OUTAGE := Call(0, REFUSED_AT + NEGATIVE_TTL, 0, None, None, false, false, true)
  const SECOND := Commit(Some("d"), [], "main", "", REFUSED_AT + NEGATIVE_TTL, false, false)

  lemma Trimmed()
    ensures NormalizeServerURL(LIBRARY, "s") == "s" && TrimSpace("u") == "u" && TrimSpace("r") == "r"
    ensures BINDING.Normalized(LIBRARY) == BINDING && BINDING.Stable(LIBRARY) && SettledURL(LIBRARY, BINDING)
    ensures Blank("") && !Blank("t") && !Blank("s") && !Blank("/r")
    ensures !IsNotFound("revoked") && NegativeReason(REFUSAL) == "revoked"
  {
    UnspacedStays("s");
    UnspacedStays("u");
    UnspacedStays("r");
    UnspacedStays("t");
    UnspacedStays("/r");
    UnspacedStays("revoked");
    assert "revoked"[0] != "not_found"[0];
  }

  lemma ConfigIsAccepted()
    ensures EnabledConfig(START.reporting) == Some(CONFIG)
  {
    Trimmed();
    UnspacedStays("formal_v2");
    UnspacedStays("upgrade_required");
    UnspacedStays("1");
  }

  lemma StartIsSound()
    ensures Sound(ENV, START)
  {
    GrantIsBacked(LIBRARY, EMPTY_CACHE, START.answers, START.answers[0]);
  }

  lemma GrantIsFound()
    ensures LoadCache(START.cacheFile, false) == Some(START.cacheFile.value)
    ensures LookupStalePositive(LIBRARY, START.cacheFile.value, BINDING) ==
            Some(PositiveRecord(LIBRARY, BINDING, GRANT, 1))
  {
    Trimmed();
    StoredPositiveIsFoundIff(LIBRARY, EMPTY_CACHE, BINDING, GRANT, 1);
  }

  lemma BindingOfTheRun(w: World, at: Time)
    requires w.reporting == START.reporting
    ensures HookBinding(ENV, w, GIT, at) == Some(BINDING) && Compact(w)
  {
    ConfigIsAccepted();
  }

  lemma OldGrantHasExpired(at: Time)
    requires REFUSED_AT <= at
    ensures Expired(PositiveRecord(LIBRARY, BINDING, GRANT, 1).expiresAt, at)
  {
  }

  lemma NothingIsFresh()
    ensures Lookup(LIBRARY, START.cacheFile.value, BINDING, REFUSED_AT).None?
  {
    GrantIsFound();
    OldGrantHasExpired(REFUSED_AT);
    NothingFresh(LIBRARY, START.cacheFile.value, BINDING, REFUSED_AT);
  }

  lemma BackendIsThere()
    ensures HasResolver(START, BINDING, 0)
  {
    Trimmed();
    ConfigIsAccepted();
  }

  lemma RefusalIsAsked()
    ensures Consults(ENV, START, GIT, REFUSED) && Answered(ENV, START, GIT, REFUSED)
    ensures Refused(START, REFUSED) && FinalAnswer(START, REFUSED) == Some(REFUSAL)
  {
    BindingOfTheRun(START, 0);
    NothingIsFresh();
    BackendIsThere();
    Trimmed();
  }

  lemma FirstIsDropped()
    ensures PostCommit(ENV, START, GIT, REFUSED, FIRST).1 == Dropped
  {
    GrantIsFound();
    Trimmed();
    BindingOfTheRun(START, 0);
    RefusalIsAsked();
    OldGrantHasExpired(FIRST.at);
    RefusedCommitIsDroppedIff(ENV, START, GIT, REFUSED, BINDING, FIRST);
  }

  lemma OutageResolves()
    ensures Resolve(ENV, START, GIT, REFUSED).result == None
    ensures var after := AfterResolve(START, Resolve(ENV, START, GIT, REFUSED));
            Resolve(ENV, after, GIT, OUTAGE).result ==
            Some(CachedContext(LIBRARY, GIT, BINDING, PositiveRecord(LIBRARY, BINDING, GRANT, 1)))
  {
    GrantIsFound();
    Trimmed();
    BindingOfTheRun(START, 0);
    RefusalIsAsked();
    assert REFUSED.now + NEGATIVE_TTL <= OUTAGE.now;
    RefusedRepositoryComesBackIff(ENV, START, GIT, REFUSED, OUTAGE, BINDING);
  }

  // The first commit is dropped, its repository having been refused; the second one, during
  // an outage, is handled for that very repository.
  lemma RefusedThenHandled()
    ensures Sound(ENV, START)
    ensures StepFates(ENV, START, CommitStep(GIT, REFUSED, FIRST)) == [Dropped]
    ensures var refused := StepWorld(ENV, START, CommitStep(GIT, REFUSED, FIRST));
            var fates := StepFates(ENV, refused, CommitStep(GIT, OUTAGE, SECOND));
            |fates| == 1 && fates[0].Handled? && fates[0].context.repoConfigID == 7
  {
    StartIsSound();
    FirstIsDropped();
    OutageResolves();
    CommitIsAccountedFor(ENV, START, GIT, REFUSED, FIRST);
    assert StepWorld(ENV, START, CommitStep(GIT, REFUSED, FIRST)) ==
           AfterResolve(START, Resolve(ENV, START, GIT, REFUSED));
  }

  // A grant that names another repository is stored where the binding never looks.
  lemma RenamedGrantIsForgotten()
    ensures var renamed := GRANT.(repoKey := "x");
            LookupStalePositive(LIBRARY, PutPositive(LIBRARY, EMPTY_CACHE, BINDING, renamed, 1), BINDING).None?
  {
    Trimmed();
    UnspacedStays("x");
    assert RecordKey(LIBRARY, BINDING, GRANT.(repoKey := "x")) == "x";
  }

  // A commit of a repository without a remote: nothing can resolve it, and nothing queues it.
  lemma CommitWithoutRemoteIsLost()
    ensures StepFates(ENV, START, CommitStep(GIT.(remoteURL := "", repoKey := ""), OUTAGE, SECOND)) == [Sent(Lost)]
  {
    var git := GIT.(remoteURL := "", repoKey := "");
    Trimmed();
    ConfigIsAccepted();
    assert HookBinding(ENV, START, git, OUTAGE.authAt) == Some(Binding("s", "u", ""));
    assert Resolve(ENV, START, git, OUTAGE) == Unchanged(START, None);
    CommitIsAccountedFor(ENV, START, git, OUTAGE, SECOND);
  }
}
