/** What the events in the queue say, and which of them count as the same. */
module QueuedEvents {
  import opened Results
  import opened GoStrings
  import opened Selections
  import opened Eligibility
  import opened ReportingConfig
  import opened EventQueue
  import opened HookRouting
  import opened HookRuns
  import TokenRefresh

  /** The two events agree, but for the space around them, in what identifies an event. */
  predicate SameEvent(e: UnresolvedEvent, f: UnresolvedEvent) {
    && TrimSpace(e.kind) == TrimSpace(f.kind)
    && TrimSpace(e.serverURL) == TrimSpace(f.serverURL)
    && TrimSpace(e.authSubject) == TrimSpace(f.authSubject)
    && TrimSpace(e.remoteURL) == TrimSpace(f.remoteURL)
    && TrimSpace(e.workspaceID) == TrimSpace(f.workspaceID)
    && TrimSpace(e.commitSHA) == TrimSpace(f.commitSHA)
    && TrimSpace(e.rewriteType) == TrimSpace(f.rewriteType)
    && TrimSpace(e.oldCommitSHA) == TrimSpace(f.oldCommitSHA)
    && TrimSpace(e.newCommitSHA) == TrimSpace(f.newCommitSHA)
  }

  // Two events have the same key exactly when these nine fields agree.
  lemma SameKeyIff(e: UnresolvedEvent, f: UnresolvedEvent)
    ensures DedupeKey(e) == DedupeKey(f) <==> SameEvent(e, f)
  {
    var k, l := DedupeKey(e), DedupeKey(f);
    assert k == l <==> |k| == |l| && forall i :: 0 <= i < |k| ==> k[i] == l[i];
    if k == l {
      assert k[0] == l[0] && k[1] == l[1] && k[2] == l[2] && k[3] == l[3] && k[4] == l[4];
      assert k[5] == l[5] && k[6] == l[6] && k[7] == l[7] && k[8] == l[8];
    }
  }

  /** The server and account of the reporting config, or else those of the login, valid or not. */
  predicate QueuedFor(env: Env, w: World, server: string, account: string) {
    var config := EnabledConfig(w.reporting);
    if config.Some? then server == config.value.serverURL && account == config.value.authSubject
    else if w.token.None? then server == "" && account == ""
    else
      && server == (if w.configuredServer != "" then w.configuredServer else w.token.value.serverURL)
      && account == (if TrimSpace(w.token.value.authSubject) != "" then TrimSpace(w.token.value.authSubject)
                     else env.subjectOf(w.token.value.accessToken))
  }

  /** The event of a commit. */
  predicate IsCommit(env: Env, w: World, git: GitContext, c: Commit, e: UnresolvedEvent) {
    && c.head.Some? && e.kind == "post-commit" && e.commitSHA == c.head.value
    && e.remoteURL == git.remoteURL && e.repoKey == git.repoKey && e.workspaceID == git.workspaceID
    && QueuedFor(env, w, e.serverURL, e.authSubject)
    && e.parentSHAs == c.parentSHAs && e.capturedAt == c.capturedAt
    && e.branchSnapshot == (if TrimSpace(git.branch) != "" then TrimSpace(git.branch)
                            else if TrimSpace(c.branchSnapshot) != "" then TrimSpace(c.branchSnapshot) else "")
    && e.rewriteType == e.oldCommitSHA == e.newCommitSHA == ""
  }

  lemma CommitEventIsCommit(env: Env, w: World, git: GitContext, c: Commit)
    requires c.head.Some?
    ensures IsCommit(env, w, git, c, CommitEvent(env, w, git, c))
  {
    FirstOfTwo(git.branch, c.branchSnapshot);
  }

  /** The queue has an event that says what `e` says. */
  ghost predicate Holds(queue: seq<UnresolvedEvent>, e: UnresolvedEvent) {
    exists i :: 0 <= i < |queue| && SameEvent(queue[i], e)
  }

  lemma KeyedIsHeld(queue: seq<UnresolvedEvent>, e: UnresolvedEvent)
    ensures HasKey(DedupeKey, queue, DedupeKey(e)) <==> Holds(queue, e)
  {
    forall i | 0 <= i < |queue|
      ensures DedupeKey(queue[i]) == DedupeKey(e) <==> SameEvent(queue[i], e)
    {
      SameKeyIff(queue[i], e);
    }
  }

  // A commit whose event is sent: it is appended, saying what the commit was, exactly when no
  // event in the queue says the same; otherwise that other event is there already.
  lemma SentCommitMeaning(env: Env, w: World, git: GitContext, call: Call, c: Commit)
    ensures var (after, fate) := PostCommit(env, w, git, call, c);
            fate in {Sent(Queued), Sent(AlreadyQueued)} ==>
              exists e ::
                && IsCommit(env, w, git, c, e)
                && (fate == Sent(AlreadyQueued) <==> Holds(w.queue, e))
                && after.queue == (if fate == Sent(Queued) then w.queue + [e] else w.queue)
  {
    var resolved := AfterResolve(w, Resolve(env, w, git, call));
    var (after, fate) := PostCommit(env, w, git, call, c);
    if fate in {Sent(Queued), Sent(AlreadyQueued)} {
      var e := CommitEvent(env, resolved, git, c);
      CommitEventIsCommit(env, resolved, git, c);
      SentCommit(env, resolved, git, c);
      assert IsCommit(env, w, git, c, e);
    }
  }

  lemma SentCommit(env: Env, w: World, git: GitContext, c: Commit)
    requires c.head.Some? && QueueCommit(env, w, git, c).1 in {Sent(Queued), Sent(AlreadyQueued)}
    ensures var e, (queue, fate) := CommitEvent(env, w, git, c), QueueCommit(env, w, git, c);
            && (fate == Sent(AlreadyQueued) <==> Holds(w.queue, e))
            && queue == (if fate == Sent(Queued) then w.queue + [e] else w.queue)
  {
    if !Blank(git.repoRoot) && !ShouldSkip(env, w, SkipBinding(env, w, git), c.at, c.loadFails) {
      var e := CommitEvent(env, w, git, c);
      SentEvent(w.queue, e, ValidEvent(e) && !c.enqueueFails);
    }
  }

  lemma SentEvent(queue: seq<UnresolvedEvent>, e: UnresolvedEvent, ok: bool)
    ensures var (after, entry) := Enqueue(DedupeKey, queue, e, ok);
            && (ok ==> (entry == AlreadyQueued <==> Holds(queue, e)) && entry in {Queued, AlreadyQueued})
            && (!ok ==> entry == Lost)
            && after == (if entry == Queued then queue + [e] else queue)
  {
    KeyedIsHeld(queue, e);
  }

  /** The event of a pair of a rewrite. */
  predicate IsPair(env: Env, w: World, git: GitContext, r: Rewrite, before: string, after: string, e: UnresolvedEvent) {
    && e.kind == "post-rewrite" && e.rewriteType == TrimSpace(r.rewriteType)
    && e.oldCommitSHA == TrimSpace(before) && e.newCommitSHA == TrimSpace(after)
    && e.remoteURL == git.remoteURL && e.repoKey == git.repoKey && e.workspaceID == git.workspaceID
    && QueuedFor(env, w, e.serverURL, e.authSubject)
    && e.capturedAt == r.capturedAt && e.commitSHA == "" && e.parentSHAs == [] && e.branchSnapshot == ""
  }

  lemma PairEvents(env: Env, w: World, after: World, git: GitContext, r: Rewrite)
    requires after.reporting == w.reporting && after.token == w.token && after.configuredServer == w.configuredServer
    ensures forall i :: 0 <= i < |r.Pairs()| ==>
              IsPair(env, w, git, r, r.Pairs()[i].0, r.Pairs()[i].1, RewriteEvents(env, after, git, r)[i])
  {
    forall i | 0 <= i < |r.Pairs()|
      ensures IsPair(env, w, git, r, r.Pairs()[i].0, r.Pairs()[i].1, RewriteEvent(env, after, git, r, r.Pairs()[i]))
    {
    }
  }

  lemma SentPairsAreHeld(
      git: GitContext, r: Rewrite, events: seq<UnresolvedEvent>, resolved: bool, skip: bool,
      before: seq<UnresolvedEvent>, after: seq<UnresolvedEvent>, fates: seq<Fate>)
    requires PairsAccountedFor(git, r, events, resolved, skip, before, after, fates)
    ensures forall i :: 0 <= i < |events| && fates[i] in {Sent(Queued), Sent(AlreadyQueued)} ==> Holds(after, events[i])
    ensures |before| <= |after| && after[..|before|] == before && after[|before|..] == Added(events, Entries(fates))
  {
    forall i | 0 <= i < |events| && fates[i] in {Sent(Queued), Sent(AlreadyQueued)}
      ensures Holds(after, events[i])
    {
      KeyedIsHeld(after, events[i]);
    }
  }

  // A pair of a rewrite whose event is sent: the queue then has an event that says what the
  // pair was, and what is new in the queue is the events of pairs that were not there before,
  // in the order of the pairs.
  lemma SentPairsMeaning(env: Env, w: World, git: GitContext, call: Call, r: Rewrite)
    requires DistinctKeys(DedupeKey, w.queue)
    ensures var (after, fates) := PostRewrite(env, w, git, call, r);
            exists events: seq<UnresolvedEvent>, at: seq<nat> :: SentPairsAre(env, w, git, r, events, at, after.queue, fates)
  {
    var (after, fates) := PostRewrite(env, w, git, call, r);
    RewriteIsAccountedFor(env, w, git, call, r);
    var events := RewriteEvents(env, after, git, r);
    var entries := Entries(fates);
    PairEvents(env, w, after, git, r);
    var resolved := AfterResolve(w, Resolve(env, w, git, call));
    SentPairsAreHeld(
      git, r, events, Resolve(env, w, git, call).result.Some?,
      ShouldSkip(env, resolved, SkipBinding(env, resolved, git), r.at, r.loadFails), w.queue, after.queue, fates);
    var at := AddedAt(events, entries);
    assert SentPairsAre(env, w, git, r, events, at, after.queue, fates);
  }

  /** `events` are those of the pairs, and the queue has grown by those at the positions `at`. */
  ghost predicate SentPairsAre(
      env: Env, w: World, git: GitContext, r: Rewrite, events: seq<UnresolvedEvent>, at: seq<nat>,
      after: seq<UnresolvedEvent>, fates: seq<Fate>)
  {
    && |events| == |fates| == |r.Pairs()|
    && (forall i :: 0 <= i < |events| ==> IsPair(env, w, git, r, r.Pairs()[i].0, r.Pairs()[i].1, events[i]))
    && (forall i :: 0 <= i < |events| && fates[i] in {Sent(Queued), Sent(AlreadyQueued)} ==> Holds(after, events[i]))
    && |w.queue| <= |after| && after[..|w.queue|] == w.queue
    && PartAt(events, after[|w.queue|..], at)
    && forall i :: 0 <= i < |events| ==> (i in at <==> fates[i] == Sent(Queued))
  }
}
