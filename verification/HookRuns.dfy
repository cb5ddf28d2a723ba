/** What every run of hooks and of the commands between them keeps. */
module HookRuns {
  import opened Results
  import opened GoStrings
  import opened Eligibility
  import opened ReportingConfig
  import opened EventQueue
  import opened HookRouting
  import opened ResolutionTheorems
  import TokenRefresh

  /** One thing that happens on the machine. */
  datatype Step =
    | CommitStep(git: GitContext, call: Call, commit: Commit)
    | RewriteStep(git: GitContext, call: Call, rewrite: Rewrite)
      /** pre-push, attribution-sync, background-sync and sync: a resolution, and nothing to queue. */
    | ResolveStep(git: GitContext, call: Call)
      /** Login, logout, activation, a changed configuration: new credentials on disk. */
    | CredentialsStep(reporting: Stored<Config>, token: Option<TokenRefresh.TokenFile>,
                      configuredServer: string, apiClient: Option<string>)
      /** Another command stores what the backend answered it, as a grant or as a refusal. */
    | RecordStep(binding: Binding, remoteURL: string, response: Response, at: Time, refused: bool)
      /** Delivered events leave the queue. */
    | ReplayStep(delivered: set<seq<string>>)

  /**
    A refresh stores each item of the list of repositories as a grant, whatever its flag says,
    and each item of the list of ineligible ones as a refusal.
   */
  function Record(env: Env, w: World, b: Binding, remoteURL: string, resp: Response, at: Time, refused: bool): World {
    var cache := LoadCache(w.cacheFile, false);
    if cache.None? then w
    else
      var c := if refused then PutNegative(env.lib, cache.value, b, remoteURL, NegativeReason(resp), at)
               else PutPositive(env.lib, cache.value, b, resp, at);
      var said := if refused then resp.(eligible := false) else resp;
      w.(cacheFile := Stored.Stored(c), answers := w.answers + [Answer(b, remoteURL, said, at)])
  }

  function StepWorld(env: Env, w: World, step: Step): World {
    match step
    case CommitStep(git, call, commit) => PostCommit(env, w, git, call, commit).0
    case RewriteStep(git, call, rewrite) => PostRewrite(env, w, git, call, rewrite).0
    case ResolveStep(git, call) => AfterResolve(w, Resolve(env, w, git, call))
    case CredentialsStep(reporting, token, configuredServer, apiClient) =>
      w.(reporting := reporting, token := token, configuredServer := configuredServer, apiClient := apiClient)
    case RecordStep(binding, remoteURL, response, at, refused) =>
      Record(env, w, binding, remoteURL, response, at, refused)
    case ReplayStep(delivered) => w.(queue := Undelivered(DedupeKey, w.queue, delivered))
  }

  /** The fates of the events the step brings, in order. */
  function StepFates(env: Env, w: World, step: Step): seq<Fate> {
    match step
    case CommitStep(git, call, commit) => [PostCommit(env, w, git, call, commit).1]
    case RewriteStep(git, call, rewrite) => PostRewrite(env, w, git, call, rewrite).1
    case _ => []
  }

  function Run(env: Env, w: World, steps: seq<Step>): World {
    if steps == [] then w
    else StepWorld(env, Run(env, w, steps[..|steps| - 1]), steps[|steps| - 1])
  }

  // ---------------------------------------------------------------- where records come from

  predicate Refuses(resp: Response) {
    !(resp.eligible && resp.repoConfigID > 0)
  }

  /** `rec`, stored under `key`, is what the answer `a` says. */
  predicate Refusal(lib: Library, a: Answer, key: string, rec: Eligibility.Record) {
    && Refuses(a.response)
    && key == LookupKey(lib, a.binding)
    && rec == NegativeRecord(lib, a.binding, a.remoteURL, NegativeReason(a.response), a.at)
  }

  predicate Grant(lib: Library, a: Answer, key: string, rec: Eligibility.Record) {
    && key == PositiveKey(lib, a.binding, a.response)
    && rec == PositiveRecord(lib, a.binding, a.response, a.at)
  }

  ghost predicate FromBackend(lib: Library, c: Cache, answers: seq<Answer>) {
    && (forall k :: k in c.negative ==> exists a :: a in answers && Refusal(lib, a, k, c.negative[k]))
    && (forall k :: k in c.repos ==> exists a :: a in answers && Grant(lib, a, k, c.repos[k]))
  }

  /** Every cached record comes from a backend answer, and no event is queued twice. */
  ghost predicate Sound(env: Env, w: World) {
    && Backed(env, w.cacheFile, w.answers)
    && DistinctKeys(DedupeKey, w.queue)
  }

  lemma MoreAnswers(lib: Library, c: Cache, answers: seq<Answer>, more: seq<Answer>)
    requires FromBackend(lib, c, answers)
    ensures FromBackend(lib, c, answers + more)
  {
    forall k | k in c.negative
      ensures exists a :: a in answers + more && Refusal(lib, a, k, c.negative[k])
    {
      var a :| a in answers && Refusal(lib, a, k, c.negative[k]);
      assert a in answers + more;
    }
    forall k | k in c.repos
      ensures exists a :: a in answers + more && Grant(lib, a, k, c.repos[k])
    {
      var a :| a in answers && Grant(lib, a, k, c.repos[k]);
      assert a in answers + more;
    }
  }

  lemma GrantIsBacked(lib: Library, c: Cache, answers: seq<Answer>, a: Answer)
    requires FromBackend(lib, c, answers) && a in answers
    ensures FromBackend(lib, PutPositive(lib, c, a.binding, a.response, a.at), answers)
  {
    var after := PutPositive(lib, c, a.binding, a.response, a.at);
    forall k | k in after.repos
      ensures exists x :: x in answers && Grant(lib, x, k, after.repos[k])
    {
      if k == PositiveKey(lib, a.binding, a.response) {
        assert Grant(lib, a, k, after.repos[k]);
      }
    }
  }

  lemma RefusalIsBacked(lib: Library, c: Cache, answers: seq<Answer>, a: Answer)
    requires FromBackend(lib, c, answers) && a in answers && Refuses(a.response)
    ensures FromBackend(
              lib, PutNegative(lib, c, a.binding, a.remoteURL, NegativeReason(a.response), a.at), answers)
  {
    var after := PutNegative(lib, c, a.binding, a.remoteURL, NegativeReason(a.response), a.at);
    forall k | k in after.negative
      ensures exists x :: x in answers && Refusal(lib, x, k, after.negative[k])
    {
      if k == LookupKey(lib, a.binding) {
        assert Refusal(lib, a, k, after.negative[k]);
      }
    }
  }

  /** The cache file holds nothing the backend did not say. */
  ghost predicate Backed(env: Env, file: Stored<Cache>, answers: seq<Answer>) {
    file.Stored? ==> FromBackend(env.lib, file.value, answers)
  }

  lemma SettleKeepsProvenance(env: Env, w: World, git: GitContext, b: Binding, call: Call, resp: Response)
    requires Backed(env, w.cacheFile, w.answers)
    ensures var res := Settle(env, w, git, b, call, resp);
            Backed(env, res.cacheFile, res.answers) && w.answers <= res.answers
  {
    var a := Answer(b, git.remoteURL, resp, call.now);
    var answers := w.answers + [a];
    var cache := LoadCache(w.cacheFile, call.secondLoadFails);
    if w.cacheFile.Stored? {
      MoreAnswers(env.lib, w.cacheFile.value, w.answers, [a]);
    }
    if cache.Some? {
      assert FromBackend(env.lib, cache.value, answers);
      if Refuses(resp) {
        RefusalIsBacked(env.lib, cache.value, answers, a);
      } else {
        GrantIsBacked(env.lib, cache.value, answers, a);
      }
    }
  }

  lemma AskKeepsProvenance(env: Env, w: World, git: GitContext, b: Binding, call: Call, stale: Option<Eligibility.Record>)
    requires Backed(env, w.cacheFile, w.answers)
    ensures var res := Ask(env, w, git, b, call, stale);
            Backed(env, res.cacheFile, res.answers) && w.answers <= res.answers
  {
    if HasResolver(w, b, call.tokenAt) && call.resolveReply.Some? {
      var resp := call.resolveReply.value;
      if CreatesRepo(w, resp) {
        var first := [Answer(b, git.remoteURL, resp, call.now)];
        if w.cacheFile.Stored? {
          MoreAnswers(env.lib, w.cacheFile.value, w.answers, first);
        }
        if call.ensureReply.Some? {
          SettleKeepsProvenance(env, w.(answers := w.answers + first), git, b, call, call.ensureReply.value);
        }
      } else {
        SettleKeepsProvenance(env, w, git, b, call, resp);
      }
    }
  }

  lemma ResolveKeepsProvenance(env: Env, w: World, git: GitContext, call: Call)
    requires Backed(env, w.cacheFile, w.answers)
    ensures var res := Resolve(env, w, git, call);
            Backed(env, res.cacheFile, res.answers) && w.answers <= res.answers
  {
    if Consults(env, w, git, call) {
      ConsultedIsAsked(env, w, git, call);
      AskKeepsProvenance(env, w, git, HookBinding(env, w, git, call.authAt).value, call, Stale(env, w, git, call));
    }
  }

  // ---------------------------------------------------------------- runs

  lemma QueueingACommit(env: Env, w: World, git: GitContext, c: Commit)
    requires DistinctKeys(DedupeKey, w.queue)
    ensures DistinctKeys(DedupeKey, QueueCommit(env, w, git, c).0)
    ensures w.queue <= QueueCommit(env, w, git, c).0
  {
    if c.head.Some? && !Blank(git.repoRoot) && !ShouldSkip(env, w, SkipBinding(env, w, git), c.at, c.loadFails) {
      var e := CommitEvent(env, w, git, c);
      EnqueuedOnce(DedupeKey, w.queue, e, ValidEvent(e) && !c.enqueueFails);
    }
  }

  lemma CommitKeepsSound(env: Env, w: World, git: GitContext, call: Call, c: Commit)
    requires Sound(env, w)
    ensures Sound(env, PostCommit(env, w, git, call, c).0)
    ensures w.queue <= PostCommit(env, w, git, call, c).0.queue
  {
    ResolveKeepsProvenance(env, w, git, call);
    QueueingACommit(env, AfterResolve(w, Resolve(env, w, git, call)), git, c);
  }

  lemma QueueingARewrite(env: Env, w: World, git: GitContext, r: Rewrite)
    requires DistinctKeys(DedupeKey, w.queue)
    ensures DistinctKeys(DedupeKey, QueueRewrite(env, w, git, r).0)
    ensures w.queue <= QueueRewrite(env, w, git, r).0
  {
    var events := RewriteEvents(env, w, git, r);
    EnqueuedInOrder(DedupeKey, w.queue, events, Accepted(events, r));
  }

  lemma RewriteKeepsSound(env: Env, w: World, git: GitContext, call: Call, r: Rewrite)
    requires Sound(env, w)
    ensures Sound(env, PostRewrite(env, w, git, call, r).0)
    ensures w.queue <= PostRewrite(env, w, git, call, r).0.queue
  {
    ResolveKeepsProvenance(env, w, git, call);
    QueueingARewrite(env, AfterResolve(w, Resolve(env, w, git, call)), git, r);
  }

  lemma RecordKeepsSound(env: Env, w: World, b: Binding, remoteURL: string, resp: Response, at: Time, refused: bool)
    requires Sound(env, w)
    ensures Sound(env, Record(env, w, b, remoteURL, resp, at, refused))
  {
    var cache := LoadCache(w.cacheFile, false);
    if cache.Some? {
      var a := Answer(b, remoteURL, if refused then resp.(eligible := false) else resp, at);
      assert FromBackend(env.lib, cache.value, w.answers);
      MoreAnswers(env.lib, cache.value, w.answers, [a]);
      if refused {
        RefusalIsBacked(env.lib, cache.value, w.answers + [a], a);
      } else {
        GrantIsBacked(env.lib, cache.value, w.answers + [a], a);
      }
    }
  }

  lemma StepKeepsSound(env: Env, w: World, step: Step)
    requires Sound(env, w)
    ensures Sound(env, StepWorld(env, w, step))
  {
    match step
    case CommitStep(git, call, commit) => CommitKeepsSound(env, w, git, call, commit);
    case RewriteStep(git, call, rewrite) => RewriteKeepsSound(env, w, git, call, rewrite);
    case ResolveStep(git, call) => ResolveKeepsProvenance(env, w, git, call);
    case CredentialsStep(_, _, _, _) =>
    case RecordStep(b, remoteURL, resp, at, refused) => RecordKeepsSound(env, w, b, remoteURL, resp, at, refused);
    case ReplayStep(delivered) => DeliveryKeepsDistinct(DedupeKey, w.queue, delivered);
  }

  // Over every run, whatever the clocks, the failures and the changes of mode, each cached
  // record is one the backend's answers account for, and no event is queued twice.
  lemma {:induction false} RunsStaySound(env: Env, w: World, steps: seq<Step>)
    requires Sound(env, w)
    ensures Sound(env, Run(env, w, steps))
  {
    if steps != [] {
      RunsStaySound(env, w, steps[..|steps| - 1]);
      StepKeepsSound(env, Run(env, w, steps[..|steps| - 1]), steps[|steps| - 1]);
    }
  }

  /** The same server, account and repository, once normalized. */
  predicate SameBinding(lib: Library, asked: Binding, b: Binding) {
    && NormalizeServerURL(lib, asked.Normalized(lib).serverURL) == b.Normalized(lib).serverURL
    && TrimSpace(asked.authSubject) == TrimSpace(b.authSubject)
    && TrimSpace(asked.repoKey) == TrimSpace(b.repoKey)
  }

  /**
    Reason enough to drop an event of the binding: the cache holds the backend's refusal of this
    very repository, less than five minutes old, and not, in compact mode, for not knowing it.
   */
  ghost predicate DropIsJustified(env: Env, w: World, b: Binding, at: Time) {
    && b.Stable(env.lib)
    && w.cacheFile.Stored? && LookupKey(env.lib, b) in w.cacheFile.value.negative
    && exists a :: a in w.answers
         && Refusal(env.lib, a, LookupKey(env.lib, b), w.cacheFile.value.negative[LookupKey(env.lib, b)])
         && SameBinding(env.lib, a.binding, b)
         && at < a.at + NEGATIVE_TTL
         && (Compact(w) ==> !IsNotFound(NegativeReason(a.response)))
  }

  // What a refusal says, read off the record it left.
  lemma RefusalMeaning(lib: Library, a: Answer, b: Binding, rec: Eligibility.Record)
    requires Refusal(lib, a, LookupKey(lib, b), rec) && Matches(lib, rec, b.Normalized(lib))
    ensures SameBinding(lib, a.binding, b)
    ensures rec.expiresAt == a.at + NEGATIVE_TTL
    ensures IsNotFound(rec.reason) == IsNotFound(NegativeReason(a.response))
  {
    TrimSpaceIdempotent(a.binding.authSubject);
    TrimSpaceIdempotent(a.binding.repoKey);
    TrimSpaceIdempotent(NegativeReason(a.response));
  }

  lemma SkipIsJustified(env: Env, w: World, b: Binding, at: Time, loadFails: bool)
    requires Sound(env, w) && ShouldSkip(env, w, b, at, loadFails)
    ensures DropIsJustified(env, w, b, at)
  {
    var c, key := LoadCache(w.cacheFile, loadFails).value, LookupKey(env.lib, b);
    LookupIsForTheBinding(env.lib, c, b, at);
    var rec := Lookup(env.lib, c, b, at).value;
    assert key in c.negative && rec == c.negative[key];
    var a :| a in w.answers && Refusal(env.lib, a, key, rec);
    RefusalMeaning(env.lib, a, b, rec);
  }

  /** The instant at which a step decides whether to drop, and for which repository. */
  function DecidesAt(step: Step): Time
    requires step.CommitStep? || step.RewriteStep?
  {
    match step
    case CommitStep(_, _, commit) => commit.at
    case RewriteStep(_, _, rewrite) => rewrite.at
  }

  lemma RunOneMore(env: Env, w: World, steps: seq<Step>, i: nat)
    requires i < |steps|
    ensures Run(env, w, steps[..i + 1]) == StepWorld(env, Run(env, w, steps[..i]), steps[i])
  {
    assert steps[..i + 1][..i] == steps[..i];
  }

  lemma DropOfAStep(env: Env, w: World, step: Step, k: nat)
    requires Sound(env, w)
    requires k < |StepFates(env, w, step)| && StepFates(env, w, step)[k] == Dropped
    ensures var after := StepWorld(env, w, step);
            DropIsJustified(env, after, SkipBinding(env, after, step.git), DecidesAt(step))
  {
    ResolveKeepsProvenance(env, w, step.git, step.call);
    var resolved := AfterResolve(w, Resolve(env, w, step.git, step.call));
    SkipIsJustified(
      env, resolved, SkipBinding(env, resolved, step.git), DecidesAt(step),
      if step.CommitStep? then step.commit.loadFails else step.rewrite.loadFails);
  }

  // Over every run, an event is dropped only with that reason.
  lemma DropsAreJustified(env: Env, w: World, steps: seq<Step>, i: nat, k: nat)
    requires Sound(env, w) && i < |steps|
    requires k < |StepFates(env, Run(env, w, steps[..i]), steps[i])|
    requires StepFates(env, Run(env, w, steps[..i]), steps[i])[k] == Dropped
    ensures var after := Run(env, w, steps[..i + 1]);
            DropIsJustified(env, after, SkipBinding(env, after, steps[i].git), DecidesAt(steps[i]))
  {
    RunsStaySound(env, w, steps[..i]);
    RunOneMore(env, w, steps, i);
    DropOfAStep(env, Run(env, w, steps[..i]), steps[i], k);
  }

  /** What keeps a commit's event out of the queue for good, once it is not to be dropped. */
  predicate CannotQueueCommit(git: GitContext, c: Commit)
    requires c.head.Some?
  {
    c.enqueueFails || Blank(git.remoteURL) || Blank(git.workspaceID) || Blank(c.head.value)
  }

  // The fate of a commit: handled exactly when resolved; otherwise lost exactly when Git fails
  // it or when, not being dropped, it lacks a remote, a workspace or a head or the queue fails
  // it; dropped exactly when the skip applies; and else in the queue exactly once. Nothing but
  // being queued touches the queue.
  lemma CommitIsAccountedFor(env: Env, w: World, git: GitContext, call: Call, c: Commit)
    requires DistinctKeys(DedupeKey, w.queue)
    ensures var resolved := AfterResolve(w, Resolve(env, w, git, call));
            var skip := ShouldSkip(env, resolved, SkipBinding(env, resolved, git), c.at, c.loadFails);
            var (after, fate) := PostCommit(env, w, git, call, c);
            && (fate.Handled? <==> Resolve(env, w, git, call).result.Some?)
            && (fate == Sent(Lost) <==>
                  && Resolve(env, w, git, call).result.None?
                  && (Blank(git.repoRoot) || c.head.None? || (!skip && CannotQueueCommit(git, c))))
            && (fate == Dropped <==>
                  Resolve(env, w, git, call).result.None? && !Blank(git.repoRoot) && c.head.Some? && skip)
            && (fate in {Sent(Queued), Sent(AlreadyQueued)} ==>
                  c.head.Some? && QueuedOnce(DedupeKey, after.queue, DedupeKey(CommitEvent(env, after, git, c))))
            && (fate != Sent(Queued) ==> after.queue == w.queue)
  {
    if c.head.Some? {
      var resolved := AfterResolve(w, Resolve(env, w, git, call));
      QueuedCommitIsThere(env, resolved, git, c);
      InvalidCommit(CommitEvent(env, resolved, git, c));
      SameSkipBinding(env, w, git, call, QueueCommit(env, resolved, git, c).0);
    }
  }

  lemma QueuedCommitIsThere(env: Env, w: World, git: GitContext, c: Commit)
    requires DistinctKeys(DedupeKey, w.queue) && c.head.Some?
    ensures var e, (after, fate) := CommitEvent(env, w, git, c), QueueCommit(env, w, git, c);
            && (fate in {Sent(Queued), Sent(AlreadyQueued)} ==> QueuedOnce(DedupeKey, after, DedupeKey(e)))
            && (fate != Sent(Queued) ==> after == w.queue)
  {
    if !Blank(git.repoRoot) && !ShouldSkip(env, w, SkipBinding(env, w, git), c.at, c.loadFails) {
      var e := CommitEvent(env, w, git, c);
      EnqueuedOnce(DedupeKey, w.queue, e, ValidEvent(e) && !c.enqueueFails);
    }
  }

  // Right after a refusal a commit is dropped exactly while the refusal is fresh and no
  // positive record is, unless it is one that compact mode asks about again.
  lemma RefusedCommitIsDroppedIff(env: Env, w: World, git: GitContext, call: Call, b: Binding, c: Commit)
    requires HookBinding(env, w, git, call.authAt) == Some(b) && b.Stable(env.lib) && SettledURL(env.lib, b)
    requires Consults(env, w, git, call) && Answered(env, w, git, call) && Refused(w, call)
    requires LoadCache(w.cacheFile, call.secondLoadFails).Some? && call.saves
    requires !Blank(git.repoRoot) && c.head.Some? && !c.loadFails
    ensures var positive := LookupStalePositive(env.lib, LoadCache(w.cacheFile, call.secondLoadFails).value, b);
            PostCommit(env, w, git, call, c).1 == Dropped <==>
            && c.at < call.now + NEGATIVE_TTL
            && (positive.Some? ==> Expired(positive.value.expiresAt, c.at))
            && !(Compact(w) && IsNotFound(NegativeReason(FinalAnswer(w, call).value)))
  {
    var cache := LoadCache(w.cacheFile, call.secondLoadFails).value;
    var reason := NegativeReason(FinalAnswer(w, call).value);
    RefusalIsStored(env, w, git, call, b);
    RefusalAnswersBriefly(env.lib, cache, b, git.remoteURL, reason, call.now, c.at);
    TrimSpaceIdempotent(reason);
    var resolved := AfterResolve(w, Resolve(env, w, git, call));
    QueueUsesTheSameBinding(env, w, git, call);
    SkipMeaning(env, resolved, b, c.at, c.loadFails);
  }

  lemma SkipMeaning(env: Env, w: World, b: Binding, at: Time, loadFails: bool)
    requires b.Stable(env.lib) && w.cacheFile.Stored? && !loadFails
    ensures var rec := Lookup(env.lib, w.cacheFile.value, b, at);
            ShouldSkip(env, w, b, at, loadFails) <==>
            rec.Some? && !rec.value.eligible && !(Compact(w) && IsNotFound(rec.value.reason))
  {
  }

  lemma InvalidCommit(e: UnresolvedEvent)
    requires e.kind == "post-commit"
    ensures ValidEvent(e) <==> !Blank(e.remoteURL) && !Blank(e.workspaceID) && !Blank(e.commitSHA)
  {
    KindsAreTrimmed();
  }

  lemma InvalidRewrite(e: UnresolvedEvent)
    requires e.kind == "post-rewrite"
    ensures ValidEvent(e) <==>
            && !Blank(e.remoteURL) && !Blank(e.workspaceID)
            && !Blank(e.rewriteType) && !Blank(e.oldCommitSHA) && !Blank(e.newCommitSHA)
  {
    KindsAreTrimmed();
  }

  lemma KindsAreTrimmed()
    ensures TrimSpace("post-commit") == "post-commit" && TrimSpace("post-rewrite") == "post-rewrite"
    ensures "post-commit" != "post-rewrite"
  {
    assert "post-commit"[0] == 'p' && "post-commit"[10] == 't' && "post-rewrite"[0] == 'p' && "post-rewrite"[11] == 'e';
    assert |"post-commit"| == 11 && |"post-rewrite"| == 12;
  }

  // The queue plays no part in which binding an event is queued for.
  lemma SameSkipBinding(env: Env, w: World, git: GitContext, call: Call, queue: seq<UnresolvedEvent>)
    ensures var resolved := AfterResolve(w, Resolve(env, w, git, call));
            SkipBinding(env, resolved.(queue := queue), git) == SkipBinding(env, resolved, git)
  {
  }

  function Entries(fates: seq<Fate>): (entries: seq<Entry>)
    ensures |entries| == |fates|
    ensures forall i :: 0 <= i < |fates| ==> entries[i] == if fates[i].Sent? then fates[i].entry else Lost
  {
    seq(|fates|, i requires 0 <= i < |fates| => if fates[i].Sent? then fates[i].entry else Lost)
  }

  lemma {:induction false} NothingAdded(events: seq<UnresolvedEvent>, entries: seq<Entry>)
    requires |events| == |entries| && forall i :: 0 <= i < |entries| ==> entries[i] != Queued
    ensures Added(events, entries) == []
  {
    if events != [] {
      NothingAdded(events[..|events| - 1], entries[..|events| - 1]);
    }
  }

  /** What keeps the event of a pair out of the queue for good, once it is not to be dropped. */
  predicate CannotQueuePair(git: GitContext, r: Rewrite, i: nat)
    requires i < |r.Pairs()|
  {
    || r.enqueueFails(i) || Blank(git.remoteURL) || Blank(git.workspaceID)
    || Blank(r.Pairs()[i].0) || Blank(r.Pairs()[i].1)
  }

  lemma SentPairs(env: Env, w: World, git: GitContext, r: Rewrite)
    requires DistinctKeys(DedupeKey, w.queue)
    ensures var events := RewriteEvents(env, w, git, r);
            var (after, entries) := EnqueueAll(DedupeKey, w.queue, events, Accepted(events, r));
            && |entries| == |r.Pairs()|
            && after == w.queue + Added(events, entries)
            && (forall i :: 0 <= i < |entries| && entries[i] != Lost ==>
                  QueuedOnce(DedupeKey, after, DedupeKey(events[i])))
            && (forall i :: 0 <= i < |entries| ==>
                  (entries[i] == Lost <==> Blank(r.rewriteType) || CannotQueuePair(git, r, i)))
  {
    var events := RewriteEvents(env, w, git, r);
    var ok := Accepted(events, r);
    EnqueuedInOrder(DedupeKey, w.queue, events, ok);
    var (after, entries) := EnqueueAll(DedupeKey, w.queue, events, ok);
    forall i | 0 <= i < |entries| && entries[i] != Lost
      ensures QueuedOnce(DedupeKey, after, DedupeKey(events[i]))
    {
      assert ok[i];
      DistinctMeansOnce(DedupeKey, after, DedupeKey(events[i]));
    }
    forall i | 0 <= i < |entries|
      ensures entries[i] == Lost <==> Blank(r.rewriteType) || CannotQueuePair(git, r, i)
    {
      InvalidRewrite(events[i]);
      TrimSpaceIdempotent(r.rewriteType);
      TrimSpaceIdempotent(r.Pairs()[i].0);
      TrimSpaceIdempotent(r.Pairs()[i].1);
    }
  }

  /** Each pair's fate is accounted for, and what is new went to the end of the queue in order. */
  ghost predicate PairsAccountedFor(
      git: GitContext, r: Rewrite, events: seq<UnresolvedEvent>, resolved: bool, skip: bool,
      before: seq<UnresolvedEvent>, after: seq<UnresolvedEvent>, fates: seq<Fate>)
  {
    && |fates| == |events| == |r.Pairs()|
    && after == before + Added(events, Entries(fates))
    && (forall i :: 0 <= i < |fates| ==> (fates[i].Handled? <==> resolved))
    && (forall i :: 0 <= i < |fates| ==>
          (fates[i] == Sent(Lost) <==>
           !resolved && (Blank(r.rewriteType) || (!skip && CannotQueuePair(git, r, i)))))
    && (forall i :: 0 <= i < |fates| ==> (fates[i] == Dropped <==> !resolved && !Blank(r.rewriteType) && skip))
    && (forall i :: 0 <= i < |fates| && fates[i] in {Sent(Queued), Sent(AlreadyQueued)} ==>
          QueuedOnce(DedupeKey, after, DedupeKey(events[i])))
  }

  lemma QueuedPairsAccountedFor(env: Env, w: World, git: GitContext, r: Rewrite)
    requires DistinctKeys(DedupeKey, w.queue)
    ensures var (after, fates) := QueueRewrite(env, w, git, r);
            var skip := ShouldSkip(env, w, SkipBinding(env, w, git), r.at, r.loadFails);
            PairsAccountedFor(git, r, RewriteEvents(env, w, git, r), false, skip, w.queue, after, fates)
  {
    var (after, fates) := QueueRewrite(env, w, git, r);
    var events := RewriteEvents(env, w, git, r);
    if Blank(r.rewriteType) || ShouldSkip(env, w, SkipBinding(env, w, git), r.at, r.loadFails) {
      NothingAdded(events, Entries(fates));
    } else {
      SentPairs(env, w, git, r);
      var entries := EnqueueAll(DedupeKey, w.queue, events, Accepted(events, r)).1;
      assert Entries(AllSent(entries)) == entries;
    }
  }

  // The same for the pairs of a rewrite, one fate each in their order.
  lemma RewriteIsAccountedFor(env: Env, w: World, git: GitContext, call: Call, r: Rewrite)
    requires DistinctKeys(DedupeKey, w.queue)
    ensures var resolved := AfterResolve(w, Resolve(env, w, git, call));
            var skip := ShouldSkip(env, resolved, SkipBinding(env, resolved, git), r.at, r.loadFails);
            var (after, fates) := PostRewrite(env, w, git, call, r);
            PairsAccountedFor(
              git, r, RewriteEvents(env, after, git, r), Resolve(env, w, git, call).result.Some?, skip,
              w.queue, after.queue, fates)
  {
    var (after, fates) := PostRewrite(env, w, git, call, r);
    var resolved := AfterResolve(w, Resolve(env, w, git, call));
    SameSkipBinding(env, w, git, call, after.queue);
    var events := RewriteEvents(env, resolved, git, r);
    assert RewriteEvents(env, after, git, r) == events;
    if Resolve(env, w, git, call).result.Some? {
      NothingAdded(events, Entries(fates));
    } else {
      QueuedPairsAccountedFor(env, resolved, git, r);
    }
  }

  // ---------------------------------------------------------------- events survive until delivered

  /** The events a step brings, given the world it leaves. */
  function StepEvents(env: Env, after: World, step: Step): seq<UnresolvedEvent> {
    match step
    case CommitStep(git, _, commit) => if commit.head.Some? then [CommitEvent(env, after, git, commit)] else []
    case RewriteStep(git, _, rewrite) => RewriteEvents(env, after, git, rewrite)
    case _ => []
  }

  predicate Delivers(step: Step, k: Key) {
    step.ReplayStep? && k in step.delivered
  }

  lemma KeptEventIsQueued(env: Env, w: World, step: Step, k: nat)
    requires Sound(env, w) && k < |StepFates(env, w, step)|
    requires StepFates(env, w, step)[k] in {Sent(Queued), Sent(AlreadyQueued)}
    ensures var after := StepWorld(env, w, step);
            && k < |StepEvents(env, after, step)|
            && HasKey(DedupeKey, after.queue, DedupeKey(StepEvents(env, after, step)[k]))
  {
    match step
    case CommitStep(git, call, commit) => KeptCommitIsQueued(env, w, git, call, commit);
    case RewriteStep(git, call, rewrite) => KeptPairIsQueued(env, w, git, call, rewrite, k);
  }

  lemma KeptCommitIsQueued(env: Env, w: World, git: GitContext, call: Call, c: Commit)
    requires DistinctKeys(DedupeKey, w.queue)
    requires PostCommit(env, w, git, call, c).1 in {Sent(Queued), Sent(AlreadyQueued)}
    ensures var after := PostCommit(env, w, git, call, c).0;
            c.head.Some? && HasKey(DedupeKey, after.queue, DedupeKey(CommitEvent(env, after, git, c)))
  {
    CommitIsAccountedFor(env, w, git, call, c);
  }

  lemma KeptPairIsQueued(env: Env, w: World, git: GitContext, call: Call, r: Rewrite, k: nat)
    requires DistinctKeys(DedupeKey, w.queue) && k < |PostRewrite(env, w, git, call, r).1|
    requires PostRewrite(env, w, git, call, r).1[k] in {Sent(Queued), Sent(AlreadyQueued)}
    ensures var after := PostRewrite(env, w, git, call, r).0;
            && k < |r.Pairs()|
            && HasKey(DedupeKey, after.queue, DedupeKey(RewriteEvents(env, after, git, r)[k]))
  {
    RewriteIsAccountedFor(env, w, git, call, r);
    var resolved := AfterResolve(w, Resolve(env, w, git, call));
    var (after, fates) := PostRewrite(env, w, git, call, r);
    PairInQueue(
      git, r, RewriteEvents(env, after, git, r), Resolve(env, w, git, call).result.Some?,
      ShouldSkip(env, resolved, SkipBinding(env, resolved, git), r.at, r.loadFails), w.queue, after.queue, fates, k);
  }

  lemma PairInQueue(
      git: GitContext, r: Rewrite, events: seq<UnresolvedEvent>, resolved: bool, skip: bool,
      before: seq<UnresolvedEvent>, after: seq<UnresolvedEvent>, fates: seq<Fate>, k: nat)
    requires PairsAccountedFor(git, r, events, resolved, skip, before, after, fates)
    requires k < |fates| && fates[k] in {Sent(Queued), Sent(AlreadyQueued)}
    ensures k < |events| && HasKey(DedupeKey, after, DedupeKey(events[k]))
  {
  }

  lemma StepKeepsQueued(env: Env, w: World, step: Step, k: Key)
    requires Sound(env, w) && HasKey(DedupeKey, w.queue, k) && !Delivers(step, k)
    ensures HasKey(DedupeKey, StepWorld(env, w, step).queue, k)
  {
    match step
    case CommitStep(git, call, commit) =>
      CommitKeepsSound(env, w, git, call, commit);
      KeyStays(DedupeKey, w.queue, StepWorld(env, w, step).queue, k);
    case RewriteStep(git, call, rewrite) =>
      RewriteKeepsSound(env, w, git, call, rewrite);
      KeyStays(DedupeKey, w.queue, StepWorld(env, w, step).queue, k);
    case ReplayStep(delivered) => DeliveryRemovesOnly(DedupeKey, w.queue, delivered, k);
    case _ =>
  }

  lemma {:induction false} QueuedUntilDelivered(env: Env, w: World, steps: seq<Step>, k: Key, i: nat, j: nat)
    requires i <= j <= |steps| && Sound(env, w) && HasKey(DedupeKey, Run(env, w, steps[..i]).queue, k)
    requires forall n :: i <= n < j ==> !Delivers(steps[n], k)
    ensures HasKey(DedupeKey, Run(env, w, steps[..j]).queue, k)
  {
    if i < j {
      QueuedUntilDelivered(env, w, steps, k, i, j - 1);
      RunsStaySound(env, w, steps[..j - 1]);
      RunOneMore(env, w, steps, j - 1);
      StepKeepsQueued(env, Run(env, w, steps[..j - 1]), steps[j - 1], k);
    }
  }

  // No queued event gets lost over a run: as long as no step delivers it, an event that was
  // queued, or found in the queue, is there exactly once however the run goes on.
  lemma QueuedEventsSurvive(env: Env, w: World, steps: seq<Step>, i: nat, k: nat)
    requires Sound(env, w) && i < |steps|
    requires var before := Run(env, w, steps[..i]);
             && k < |StepFates(env, before, steps[i])|
             && StepFates(env, before, steps[i])[k] in {Sent(Queued), Sent(AlreadyQueued)}
    ensures var after := Run(env, w, steps[..i + 1]);
            && k < |StepEvents(env, after, steps[i])|
            && var key := DedupeKey(StepEvents(env, after, steps[i])[k]);
               (forall j :: i < j < |steps| ==> !Delivers(steps[j], key)) ==>
                 QueuedOnce(DedupeKey, Run(env, w, steps).queue, key)
  {
    RunsStaySound(env, w, steps[..i]);
    RunOneMore(env, w, steps, i);
    KeptEventIsQueued(env, Run(env, w, steps[..i]), steps[i], k);
    var after := Run(env, w, steps[..i + 1]);
    var key := DedupeKey(StepEvents(env, after, steps[i])[k]);
    if forall j :: i < j < |steps| ==> !Delivers(steps[j], key) {
      QueuedUntilDelivered(env, w, steps, key, i + 1, |steps|);
      assert steps[..|steps|] == steps;
      RunsStaySound(env, w, steps);
      DistinctMeansOnce(DedupeKey, Run(env, w, steps).queue, key);
    }
  }
}
