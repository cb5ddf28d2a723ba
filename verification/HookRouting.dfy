/**
  What a Git hook does with an event: resolve the repository from the cache or the backend,
  or else queue the event, unless the repository is known to be refused.
 */
module HookRouting {
  import opened Results
  import opened GoStrings
  import opened Eligibility
  import opened ReportingConfig
  import opened EventQueue
  import TokenRefresh

  datatype GitContext = GitContext(
    repoRoot: string, remoteURL: string, branch: string, workspaceID: string, repoKey: string)

  datatype ExecutionContext = ExecutionContext(
    serverURL: string, authSubject: string, repoConfigID: int, repoKey: string, repoFullName: string,
    workspaceID: string, repoRoot: string, branch: string, durableReplay: bool)

  datatype UnresolvedEvent = UnresolvedEvent(
    kind: string, remoteURL: string, repoKey: string, workspaceID: string, serverURL: string, authSubject: string,
    commitSHA: string, parentSHAs: seq<string>, branchSnapshot: string,
    rewriteType: string, oldCommitSHA: string, newCommitSHA: string, capturedAt: string)

  /** One answer of the backend about a repository: for whom it was asked, what it said and when. */
  datatype Answer = Answer(binding: Binding, remoteURL: string, response: Response, at: Time)

  /** What a hook finds on disk and in its process, and the answers the backend has given so far. */
  datatype World = World(
    reporting: Stored<Config>,
    token: Option<TokenRefresh.TokenFile>,
    configuredServer: string,
    apiClient: Option<string>,
    cacheFile: Stored<Cache>,
    queue: seq<UnresolvedEvent>,
    answers: seq<Answer>)

  /** Go's libraries and the reading of a subject out of an access token. */
  datatype Env = Env(lib: Library, subjectOf: TokenRefresh.SubjectReader)

  /**
    What one resolution meets outside: the clock at its successive readings, the replies of the
    backend (none standing for an error), and whether the cache file can be read and written.
   */
  datatype Call = Call(
    authAt: Time, now: Time, tokenAt: Time,
    resolveReply: Option<Response>, ensureReply: Option<Response>,
    firstLoadFails: bool, secondLoadFails: bool, saves: bool)

  // ---------------------------------------------------------------- resolution

  function TokenServer(w: World): string
    requires w.token.Some?
  {
    if w.configuredServer != "" then w.configuredServer else w.token.value.serverURL
  }

  predicate Compact(w: World) {
    EnabledConfig(w.reporting).Some?
  }

  /** The binding a resolution uses; none when there are no usable credentials. */
  function HookBinding(env: Env, w: World, git: GitContext, authAt: Time): Option<Binding> {
    var config := EnabledConfig(w.reporting);
    if config.Some? then Some(Binding(config.value.serverURL, config.value.authSubject, git.repoKey))
    else if w.token.None? || !w.token.value.IsValid(authAt) then None
    else Some(Binding(TokenServer(w), w.token.value.StableAuthSubject(env.subjectOf), git.repoKey))
  }

  /** The server and the account an unresolved event is queued for. */
  function UnresolvedBinding(env: Env, w: World): (string, string) {
    var config := EnabledConfig(w.reporting);
    if config.Some? then (config.value.serverURL, config.value.authSubject)
    else if w.token.None? then ("", "")
    else (TokenServer(w), w.token.value.StableAuthSubject(env.subjectOf))
  }

  function LoadCache(file: Stored<Cache>, fails: bool): Option<Cache> {
    if fails || file.Corrupt? then None else if file.Missing? then Some(EMPTY_CACHE) else Some(file.value)
  }

  /** Whether there is a backend to ask. */
  predicate HasResolver(w: World, b: Binding, tokenAt: Time) {
    if Compact(w) then !Blank(b.serverURL) && !Blank(EnabledConfig(w.reporting).value.reporterToken)
    else
      || (w.apiClient.Some? && !Blank(w.apiClient.value))
      || (!Blank(b.serverURL) && w.token.Some? && w.token.value.IsValid(tokenAt) && !Blank(w.token.value.accessToken))
  }

  predicate IsNotFound(reason: string) {
    TrimSpace(reason) == "not_found"
  }

  function ContextFrom(
      lib: Library, git: GitContext, b: Binding, id: int, repoKey: string, fullName: string, durable: bool): ExecutionContext {
    var n := b.Normalized(lib);
    ExecutionContext(
      n.serverURL, n.authSubject, id, repoKey, fullName, git.workspaceID, git.repoRoot, git.branch, durable)
  }

  function CachedContext(lib: Library, git: GitContext, b: Binding, rec: Record): ExecutionContext {
    ContextFrom(lib, git, b, rec.repoConfigID, rec.repoKey, rec.fullName, true)
  }

  /** What a resolution answers and leaves behind. */
  datatype Resolution = Resolution(result: Option<ExecutionContext>, cacheFile: Stored<Cache>, answers: seq<Answer>)

  function Unchanged(w: World, result: Option<ExecutionContext>): Resolution {
    Resolution(result, w.cacheFile, w.answers)
  }

  function NegativeReason(resp: Response): string {
    if Blank(resp.reason) then "not_found" else TrimSpace(resp.reason)
  }

  /** The cache once an answer is stored. */
  function Remember(lib: Library, c: Cache, b: Binding, remoteURL: string, resp: Response, now: Time): Cache {
    if resp.eligible && resp.repoConfigID > 0 then PutPositive(lib, c, b, resp, now)
    else PutNegative(lib, c, b, remoteURL, NegativeReason(resp), now)
  }

  /** What an answer resolves to. */
  function AnsweredContext(env: Env, git: GitContext, b: Binding, resp: Response): Option<ExecutionContext> {
    if !resp.eligible || resp.repoConfigID == 0 then None
    else Some(ContextFrom(
      env.lib, git, b, resp.repoConfigID, FirstNonEmpty([resp.repoKey, git.repoKey]), TrimSpace(resp.fullName),
      b.Stable(env.lib)))
  }

  /** The end of a resolution that got an answer. */
  function Settle(env: Env, w: World, git: GitContext, b: Binding, call: Call, resp: Response): Resolution {
    var cache := LoadCache(w.cacheFile, call.secondLoadFails);
    Resolution(
      AnsweredContext(env, git, b, resp),
      if b.Stable(env.lib) && cache.Some? && call.saves
      then Stored.Stored(Remember(env.lib, cache.value, b, git.remoteURL, resp, call.now))
      else w.cacheFile,
      w.answers + [Answer(b, git.remoteURL, resp, call.now)])
  }

  /** Whether compact mode goes on to create the repository. */
  predicate CreatesRepo(w: World, resp: Response) {
    Compact(w) && !resp.eligible && IsNotFound(resp.reason)
  }

  function Ask(env: Env, w: World, git: GitContext, b: Binding, call: Call, stale: Option<Record>): Resolution {
    if !HasResolver(w, b, call.tokenAt) || call.resolveReply.None? then
      Unchanged(w, if stale.Some? then Some(CachedContext(env.lib, git, b, stale.value)) else None)
    else
      var resp := call.resolveReply.value;
      if !CreatesRepo(w, resp) then Settle(env, w, git, b, call, resp)
      else
        var asked := w.(answers := w.answers + [Answer(b, git.remoteURL, resp, call.now)]);
        if call.ensureReply.None? then Unchanged(asked, None)
        else Settle(env, asked, git, b, call, call.ensureReply.value)
  }

  /** A cached record that ends the resolution without asking. */
  predicate Decides(w: World, rec: Record) {
    (rec.eligible && rec.repoConfigID != 0) || !(Compact(w) && IsNotFound(rec.reason))
  }

  /** resolveHookExecutionContext. */
  function Resolve(env: Env, w: World, git: GitContext, call: Call): Resolution {
    var binding := HookBinding(env, w, git, call.authAt);
    if binding.None? then Unchanged(w, None)
    else
      var b := binding.value;
      if !b.Stable(env.lib) then Ask(env, w, git, b, call, None)
      else
        var cache := LoadCache(w.cacheFile, call.firstLoadFails);
        if cache.None? then Unchanged(w, None)
        else
          var rec := Lookup(env.lib, cache.value, b, call.now);
          if rec.Some? && Decides(w, rec.value) then
            Unchanged(
              w,
              if rec.value.eligible && rec.value.repoConfigID != 0 then Some(CachedContext(env.lib, git, b, rec.value))
              else None)
          else Ask(env, w, git, b, call, LookupStalePositive(env.lib, cache.value, b))
  }

  // ---------------------------------------------------------------- the queue

  predicate ValidEvent(e: UnresolvedEvent) {
    && !Blank(e.kind) && !Blank(e.remoteURL) && !Blank(e.workspaceID)
    && (TrimSpace(e.kind) == "post-commit" ==> !Blank(e.commitSHA))
    && (TrimSpace(e.kind) == "post-rewrite" ==>
          !Blank(e.rewriteType) && !Blank(e.oldCommitSHA) && !Blank(e.newCommitSHA))
    && (TrimSpace(e.kind) == "post-commit" || TrimSpace(e.kind) == "post-rewrite")
  }

  function DedupeKey(e: UnresolvedEvent): seq<string> {
    [TrimSpace(e.kind), TrimSpace(e.serverURL), TrimSpace(e.authSubject), TrimSpace(e.remoteURL),
     TrimSpace(e.workspaceID), TrimSpace(e.commitSHA), TrimSpace(e.rewriteType),
     TrimSpace(e.oldCommitSHA), TrimSpace(e.newCommitSHA)]
  }

  /** What becomes of an event. */
  datatype Fate = Handled(context: ExecutionContext) | Dropped | Sent(entry: Entry)

  /** shouldSkipUnresolvedHookQueue. */
  predicate ShouldSkip(env: Env, w: World, b: Binding, at: Time, loadFails: bool) {
    && b.Stable(env.lib)
    && LoadCache(w.cacheFile, loadFails).Some?
    && var rec := Lookup(env.lib, LoadCache(w.cacheFile, loadFails).value, b, at);
       && rec.Some?
       && !(IsNotFound(rec.value.reason) && Compact(w))
       && !rec.value.eligible
  }

  function SkipBinding(env: Env, w: World, git: GitContext): Binding {
    var (serverURL, authSubject) := UnresolvedBinding(env, w);
    Binding(serverURL, authSubject, git.repoKey)
  }

  /** What Git says about the commit, and what queueing it meets. */
  datatype Commit = Commit(
    head: Option<string>, parentSHAs: seq<string>, branchSnapshot: string, capturedAt: string,
    at: Time, loadFails: bool, enqueueFails: bool)

  function CommitEvent(env: Env, w: World, git: GitContext, c: Commit): UnresolvedEvent
    requires c.head.Some?
  {
    var b := SkipBinding(env, w, git);
    UnresolvedEvent(
      "post-commit", git.remoteURL, git.repoKey, git.workspaceID, b.serverURL, b.authSubject,
      c.head.value, c.parentSHAs, FirstNonEmpty([git.branch, c.branchSnapshot]), "", "", "", c.capturedAt)
  }

  /** The fate of a commit whose repository was not resolved, and the queue after it. */
  function QueueCommit(env: Env, w: World, git: GitContext, c: Commit): (seq<UnresolvedEvent>, Fate) {
    if Blank(git.repoRoot) || c.head.None? then (w.queue, Sent(Lost))
    else if ShouldSkip(env, w, SkipBinding(env, w, git), c.at, c.loadFails) then (w.queue, Dropped)
    else
      var e := CommitEvent(env, w, git, c);
      var (queue, entry) := Enqueue(DedupeKey, w.queue, e, ValidEvent(e) && !c.enqueueFails);
      (queue, Sent(entry))
  }

  /** What Git passes to the post-rewrite hook: none when a line cannot be parsed. */
  datatype Rewrite = Rewrite(
    rewriteType: string, pairs: Option<seq<(string, string)>>, capturedAt: string,
    at: Time, loadFails: bool, enqueueFails: nat -> bool)
  {
    /** The pairs that reach the hook at all. */
    function Pairs(): seq<(string, string)> {
      if pairs.Some? then pairs.value else []
    }
  }

  function RewriteEvent(env: Env, w: World, git: GitContext, r: Rewrite, p: (string, string)): UnresolvedEvent {
    var b := SkipBinding(env, w, git);
    UnresolvedEvent(
      "post-rewrite", git.remoteURL, git.repoKey, git.workspaceID, b.serverURL, b.authSubject,
      "", [], "", TrimSpace(r.rewriteType), TrimSpace(p.0), TrimSpace(p.1), r.capturedAt)
  }

  function RewriteEvents(env: Env, w: World, git: GitContext, r: Rewrite): (events: seq<UnresolvedEvent>)
    ensures |events| == |r.Pairs()|
    ensures forall i :: 0 <= i < |events| ==> events[i] == RewriteEvent(env, w, git, r, r.Pairs()[i])
  {
    seq(|r.Pairs()|, i requires 0 <= i < |r.Pairs()| => RewriteEvent(env, w, git, r, r.Pairs()[i]))
  }

  /** Which of the events are well formed and can be written. */
  function Accepted(events: seq<UnresolvedEvent>, r: Rewrite): (ok: seq<bool>)
    ensures |ok| == |events|
    ensures forall i :: 0 <= i < |events| ==> (ok[i] <==> ValidEvent(events[i]) && !r.enqueueFails(i))
  {
    seq(|events|, i requires 0 <= i < |events| => ValidEvent(events[i]) && !r.enqueueFails(i))
  }

  function AllSent(entries: seq<Entry>): (fates: seq<Fate>)
    ensures |fates| == |entries| && forall i :: 0 <= i < |fates| ==> fates[i] == Sent(entries[i])
  {
    seq(|entries|, i requires 0 <= i < |entries| => Sent(entries[i]))
  }

  function Repeat(fate: Fate, n: nat): (fates: seq<Fate>)
    ensures |fates| == n && forall i :: 0 <= i < n ==> fates[i] == fate
  {
    seq(n, _ => fate)
  }

  /** The fates of the pairs of a rewrite whose repository was not resolved. */
  function QueueRewrite(env: Env, w: World, git: GitContext, r: Rewrite): (seq<UnresolvedEvent>, seq<Fate>) {
    var n := |r.Pairs()|;
    if Blank(r.rewriteType) then (w.queue, Repeat(Sent(Lost), n))
    else if ShouldSkip(env, w, SkipBinding(env, w, git), r.at, r.loadFails) then (w.queue, Repeat(Dropped, n))
    else
      var events := RewriteEvents(env, w, git, r);
      var (queue, entries) := EnqueueAll(DedupeKey, w.queue, events, Accepted(events, r));
      (queue, AllSent(entries))
  }

  // ---------------------------------------------------------------- the two hooks

  function AfterResolve(w: World, res: Resolution): World {
    w.(cacheFile := res.cacheFile, answers := res.answers)
  }

  function PostCommit(env: Env, w: World, git: GitContext, call: Call, c: Commit): (World, Fate) {
    var res := Resolve(env, w, git, call);
    var resolved := AfterResolve(w, res);
    if res.result.Some? then (resolved, Handled(res.result.value))
    else
      var (queue, fate) := QueueCommit(env, resolved, git, c);
      (resolved.(queue := queue), fate)
  }

  function PostRewrite(env: Env, w: World, git: GitContext, call: Call, r: Rewrite): (World, seq<Fate>) {
    var res := Resolve(env, w, git, call);
    var resolved := AfterResolve(w, res);
    if res.result.Some? then (resolved, Repeat(Handled(res.result.value), |r.Pairs()|))
    else
      var (queue, fates) := QueueRewrite(env, resolved, git, r);
      (resolved.(queue := queue), fates)
  }
}
