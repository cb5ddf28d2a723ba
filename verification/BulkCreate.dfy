/**
  Creating many attribution request claims at once: every builder's mutator runs the next one
  from inside its own stack of hooks, and the innermost one runs the only insert.
 */
module BulkCreate {
  import opened Results
  import opened Claims

  /**
    A hook wraps the next mutator: it may return an error without calling it, it may edit the
    mutation before calling it, and it may turn its success into an error.
   */
  datatype Hook = Hook(rejects: Mutation -> bool, edit: Mutation -> Mutation, refuses: bool)

  /** What a builder brings into the run. */
  datatype Job = Job(mutation: Mutation, hooks: seq<Hook>)

  datatype Failure =
    | HookRejected(builder: nat, hook: nat)
    | CheckFailed(builder: nat, error: ValidationError)
    | InsertFailed
    | HookRefused(builder: nat, hook: nat)
    | Broken

  datatype Event = Enter(builder: nat, hook: nat) | Exit(builder: nat, hook: nat) | Insert

  /**
    The part of a save that is the entity's own: its checks, the node built from a mutation, and
    that node with its id. Every entity shares the rest.
   */
  datatype Schema = Schema(
    check: Mutation -> Option<ValidationError>, node: Mutation -> Claim, withID: (Claim, int) -> Claim)

  const CLAIMS: Schema := Schema(Check, NodeOf, (node: Claim, id: int) => node.(id := id))

  /** The database: whether it takes the batch, and the id it reports for each row, if any. */
  datatype Database = Database(accepts: bool, ids: nat -> Option<int>)

  function RowID(db: Database, i: nat): int {
    if db.ids(i).Some? then db.ids(i).value else 0
  }

  // ---------------------------------------------------------------- one builder on its own

  /** The mutation after the hooks from `h` on, or the hook that rejects it. */
  function Walk(job: Job, h: nat): Result<Mutation, nat>
    requires h <= |job.hooks|
    decreases |job.hooks| - h
  {
    if h == |job.hooks| then Ok(job.mutation)
    else if job.hooks[h].rejects(job.mutation) then Err(h)
    else Walk(Edited(job, h), h + 1)
  }

  function Edited(job: Job, h: nat): Job
    requires h < |job.hooks|
  {
    job.(mutation := job.hooks[h].edit(job.mutation))
  }

  /** A builder gets past its hooks and its checks. */
  predicate Prepared(sc: Schema, job: Job, h: nat)
    requires h <= |job.hooks|
  {
    Walk(job, h).Ok? && sc.check(Walk(job, h).value).None?
  }

  /** The outermost hook from `h` on is the last to speak: the first to refuse is the innermost. */
  function Refusal(job: Job, builder: nat, h: nat): Option<Failure>
    requires h <= |job.hooks|
    decreases |job.hooks| - h
  {
    if h == |job.hooks| then None
    else if Refusal(job, builder, h + 1).Some? then Refusal(job, builder, h + 1)
    else if job.hooks[h].refuses then Some(HookRefused(builder, h))
    else None
  }

  // ---------------------------------------------------------------- the nested chain

  ghost predicate At(jobs: seq<Job>, i: nat, h: nat) {
    i < |jobs| && h <= |jobs[i].hooks|
  }

  /** What stops the chain from hook `h` of builder `i` on before it reaches the insert. */
  function Obstacle(sc: Schema, jobs: seq<Job>, i: nat, h: nat): Option<Failure>
    requires i < |jobs| && h <= |jobs[i].hooks|
    decreases |jobs| - i, |jobs[i].hooks| - h
  {
    var job := jobs[i];
    if h < |job.hooks| then
      if job.hooks[h].rejects(job.mutation) then Some(HookRejected(i, h))
      else Obstacle(sc, jobs[i := Edited(job, h)], i, h + 1)
    else if sc.check(job.mutation).Some? then Some(CheckFailed(i, sc.check(job.mutation).value))
    else if i + 1 < |jobs| then Obstacle(sc, jobs, i + 1, 0)
    else None
  }

  /** What fails while the chain unwinds. */
  function Unwinding(jobs: seq<Job>, i: nat, h: nat): Option<Failure>
    requires i < |jobs| && h <= |jobs[i].hooks|
    decreases |jobs| - i
  {
    if i + 1 < |jobs| && Unwinding(jobs, i + 1, 0).Some? then Unwinding(jobs, i + 1, 0)
    else Refusal(jobs[i], i, h)
  }

  function Outcome(sc: Schema, jobs: seq<Job>, db: Database, i: nat, h: nat): Option<Failure>
    requires i < |jobs| && h <= |jobs[i].hooks|
  {
    if Obstacle(sc, jobs, i, h).Some? then Obstacle(sc, jobs, i, h)
    else if !db.accepts then Some(InsertFailed)
    else Unwinding(jobs, i, h)
  }

  function Trace(sc: Schema, jobs: seq<Job>, i: nat, h: nat): seq<Event>
    requires i < |jobs| && h <= |jobs[i].hooks|
    decreases |jobs| - i, |jobs[i].hooks| - h
  {
    var job := jobs[i];
    if h < |job.hooks| then
      [Enter(i, h)] +
      (if job.hooks[h].rejects(job.mutation) then [] else Trace(sc, jobs[i := Edited(job, h)], i, h + 1)) +
      [Exit(i, h)]
    else if sc.check(job.mutation).Some? then []
    else if i + 1 < |jobs| then Trace(sc, jobs, i + 1, 0)
    else [Insert]
  }

  /** The mutations the specs are made of, from builder `i` on. */
  function Finals(jobs: seq<Job>, i: nat, h: nat): (finals: seq<Option<Mutation>>)
    requires i < |jobs| && h <= |jobs[i].hooks|
    ensures |finals| == |jobs| - i
    decreases |jobs| - i
  {
    [if Walk(jobs[i], h).Ok? then Some(Walk(jobs[i], h).value) else None] +
    if i + 1 < |jobs| then Finals(jobs, i + 1, 0) else []
  }

  /** A mutation is marked done once everything below it succeeded. */
  predicate MarksDone(sc: Schema, jobs: seq<Job>, db: Database, i: nat, h: nat, k: nat)
    requires i <= k < |jobs| && h <= |jobs[i].hooks|
  {
    Obstacle(sc, jobs, i, h).None? && db.accepts && (k + 1 < |jobs| ==> Unwinding(jobs, k + 1, 0).None?)
  }

  /** The node of a builder once the insert has given it its id. */
  function NodeWithID(sc: Schema, m: Mutation, db: Database, i: nat): Claim {
    sc.withID(sc.node(m), RowID(db, i))
  }

  /** A builder, saved on its own. */
  class ClaimBuilder {
    var mutation: Mutation
    var id: Option<int>
    var done: bool
    const hooks: seq<Hook>

    constructor (mutation: Mutation, hooks: seq<Hook>)
      ensures this.mutation == mutation && this.hooks == hooks && id == None && !done
    {
      this.mutation, this.hooks, id, done := mutation, hooks, None, false;
    }

    method Defaults(clock: Clock)
      modifies this`mutation
      ensures mutation == WithDefaults(old(mutation), clock)
    {
      mutation := mutation.(status := OrElse(mutation.status, DEFAULT_STATUS));
      mutation := mutation.(attemptCount := OrElse(mutation.attemptCount, 0));
      mutation := mutation.(nextAttemptAt := OrElse(mutation.nextAttemptAt, clock.nextAttemptAt));
      mutation := mutation.(inputTokens := OrElse(mutation.inputTokens, 0));
      mutation := mutation.(outputTokens := OrElse(mutation.outputTokens, 0));
      mutation := mutation.(cacheCreationTokens := OrElse(mutation.cacheCreationTokens, 0));
      mutation := mutation.(cacheReadTokens := OrElse(mutation.cacheReadTokens, 0));
      mutation := mutation.(totalTokens := OrElse(mutation.totalTokens, 0));
      mutation := mutation.(createdAt := OrElse(mutation.createdAt, clock.createdAt));
      mutation := mutation.(updatedAt := OrElse(mutation.updatedAt, clock.updatedAt));
    }

    /** sqlSave; `inserted` is the id of the row, if the database takes it. */
    method SqlSave(sc: Schema, inserted: Option<int>) returns (r: Result<Claim, Failure>)
      modifies this`id, this`done
      ensures r.Ok? <==> sc.check(mutation).None? && inserted.Some?
      ensures r.Ok? ==> r.value == sc.withID(sc.node(mutation), inserted.value) && id == inserted && done
      ensures r.Err? ==> id == old(id) && done == old(done)
    {
      var failed := sc.check(mutation);
      if failed.Some? {
        return Err(CheckFailed(0, failed.value));
      }
      var node := sc.node(mutation);
      if inserted.None? {
        return Err(InsertFailed);
      }
      node := sc.withID(node, inserted.value);
      id, done := inserted, true;
      return Ok(node);
    }

    /** withHooks: sqlSave inside the hooks from `h` on. */
    method WithHooks(sc: Schema, inserted: Option<int>, h: nat) returns (r: Result<Claim, Failure>)
      requires h <= |hooks|
      modifies this
      ensures r.Ok? <==> Prepared(sc, old(Job(mutation, hooks)), h) && inserted.Some? &&
                         Refusal(old(Job(mutation, hooks)), 0, h).None?
      ensures r.Ok? ==> r.value == SingleNode(sc, old(Job(mutation, hooks)), h, inserted.value) && done
      decreases |hooks| - h
    {
      if h == |hooks| {
        r := SqlSave(sc, inserted);
        return;
      }
      if hooks[h].rejects(mutation) {
        return Err(HookRejected(0, h));
      }
      SameRefusal(Job(mutation, hooks), hooks[h].edit(mutation), 0, h + 1);
      mutation := hooks[h].edit(mutation);
      r := WithHooks(sc, inserted, h + 1);
      if r.Ok? && hooks[h].refuses {
        return Err(HookRefused(0, h));
      }
    }

    method Save(sc: Schema, clock: Clock, inserted: Option<int>) returns (r: Result<Claim, Failure>)
      modifies this
      ensures r.Ok? <==> SavesAlone(sc, DefaultedJob(old(Job(mutation, hooks)), clock)) && inserted.Some?
      ensures r.Ok? ==>
                r.value == SingleNode(sc, DefaultedJob(old(Job(mutation, hooks)), clock), 0, inserted.value) && done
    {
      Defaults(clock);
      r := WithHooks(sc, inserted, 0);
    }
  }

  /** A builder's hooks and checks let it be saved on its own. */
  predicate SavesAlone(sc: Schema, job: Job) {
    Prepared(sc, job, 0) && Refusal(job, 0, 0).None?
  }

  /** The node saving a builder on its own answers. */
  function SingleNode(sc: Schema, job: Job, h: nat, id: int): Claim
    requires h <= |job.hooks| && Walk(job, h).Ok?
  {
    sc.withID(sc.node(Walk(job, h).value), id)
  }

  /** The builders with their mutations, the slices of specs and nodes, and what was seen so far. */
  datatype State = State(
    jobs: seq<Job>, ids: seq<Option<int>>, done: seq<bool>,
    specs: seq<Option<Mutation>>, nodes: seq<Option<Claim>>,
    trace: seq<Event>, batches: seq<seq<Option<Mutation>>>)

  ghost predicate Shaped(s: State) {
    |s.jobs| == |s.ids| == |s.done| == |s.specs| == |s.nodes|
  }

  ghost predicate SamePrefix(s: State, t: State, i: nat)
    requires Shaped(s) && Shaped(t) && |s.jobs| == |t.jobs| && i <= |s.jobs|
  {
    && t.jobs[..i] == s.jobs[..i] && t.ids[..i] == s.ids[..i] && t.done[..i] == s.done[..i]
    && t.specs[..i] == s.specs[..i] && t.nodes[..i] == s.nodes[..i]
  }

  /** Builder `k` has its spec, its node and its id. */
  ghost predicate InPlace(
      sc: Schema, db: Database, k: nat,
      job: Job, id: Option<int>, spec: Option<Mutation>, node: Option<Claim>)
  {
    && spec == Some(job.mutation)
    && node == Some(NodeWithID(sc, job.mutation, db, k))
    && id == Some(RowID(db, k))
  }

  /** What the outside sees of running the chain from hook `h` of builder `i` on. */
  ghost predicate RanOutside(sc: Schema, db: Database, s: State, t: State, i: nat, h: nat, err: Option<Failure>)
    requires Shaped(s) && At(s.jobs, i, h)
  {
    && err == Outcome(sc, s.jobs, db, i, h)
    && t.trace == s.trace + Trace(sc, s.jobs, i, h)
    && t.batches == s.batches +
                    (if Obstacle(sc, s.jobs, i, h).None? then [s.specs[..i] + Finals(s.jobs, i, h)] else [])
  }

  /** What it leaves in the builders and the slices. */
  ghost predicate RanInside(sc: Schema, db: Database, s: State, t: State, i: nat, h: nat, err: Option<Failure>)
    requires Shaped(s) && At(s.jobs, i, h)
  {
    && Shaped(t) && |t.jobs| == |s.jobs| && SamePrefix(s, t, i)
    && (forall k :: i <= k < |t.jobs| ==> t.jobs[k].hooks == s.jobs[k].hooks)
    && (forall k :: i <= k < |t.jobs| ==>
          (t.done[k] <==> s.done[k] || MarksDone(sc, s.jobs, db, i, h, k)))
    && (err.None? ==> t.specs[i..] == Finals(s.jobs, i, h))
    && (err.None? ==> forall k :: i <= k < |t.jobs| ==>
          InPlace(sc, db, k, t.jobs[k], t.ids[k], t.specs[k], t.nodes[k]))
  }

  /** Running the chain from hook `h` of builder `i` on, whether or not it fails. */
  ghost predicate Ran(sc: Schema, db: Database, s: State, t: State, i: nat, h: nat, err: Option<Failure>)
    requires Shaped(s) && At(s.jobs, i, h)
  {
    RanOutside(sc, db, s, t, i, h, err) && RanInside(sc, db, s, t, i, h, err)
  }

  // Builders further down the chain do not notice an edit of builder `i`.
  lemma {:induction false} LowerFinals(jobs: seq<Job>, i: nat, job: Job, k: nat)
    requires i < k < |jobs|
    ensures Finals(jobs[i := job], k, 0) == Finals(jobs, k, 0)
    decreases |jobs| - k
  {
    if k + 1 < |jobs| {
      LowerFinals(jobs, i, job, k + 1);
    }
  }

  lemma {:induction false} LowerUnwinding(jobs: seq<Job>, i: nat, job: Job, k: nat)
    requires i < k < |jobs|
    ensures Unwinding(jobs[i := job], k, 0) == Unwinding(jobs, k, 0)
    decreases |jobs| - k
  {
    if k + 1 < |jobs| {
      LowerUnwinding(jobs, i, job, k + 1);
    }
  }

  lemma {:induction false} SameRefusal(job: Job, mutation: Mutation, i: nat, h: nat)
    requires h <= |job.hooks|
    ensures Refusal(job.(mutation := mutation), i, h) == Refusal(job, i, h)
    decreases |job.hooks| - h
  {
    if h < |job.hooks| {
      SameRefusal(job, mutation, i, h + 1);
    }
  }

  // One hook that lets the mutation through, around a run of the rest of the chain.
  lemma HookStep(sc: Schema, jobs: seq<Job>, db: Database, i: nat, h: nat)
    requires i < |jobs| && h < |jobs[i].hooks| && !jobs[i].hooks[h].rejects(jobs[i].mutation)
    ensures var inner := jobs[i := Edited(jobs[i], h)];
            && Obstacle(sc, jobs, i, h) == Obstacle(sc, inner, i, h + 1)
            && Finals(jobs, i, h) == Finals(inner, i, h + 1)
            && Outcome(sc, jobs, db, i, h) ==
               (if Outcome(sc, inner, db, i, h + 1).None? && jobs[i].hooks[h].refuses then Some(HookRefused(i, h))
                else Outcome(sc, inner, db, i, h + 1))
            && forall k :: i <= k < |jobs| ==> MarksDone(sc, jobs, db, i, h, k) == MarksDone(sc, inner, db, i, h + 1, k)
  {
    var inner := jobs[i := Edited(jobs[i], h)];
    SameRefusal(jobs[i], inner[i].mutation, i, h + 1);
    if i + 1 < |jobs| {
      LowerFinals(jobs, i, inner[i], i + 1);
      LowerUnwinding(jobs, i, inner[i], i + 1);
    }
    forall k | i <= k < |jobs|
      ensures MarksDone(sc, jobs, db, i, h, k) == MarksDone(sc, inner, db, i, h + 1, k)
    {
      if k + 1 < |jobs| {
        LowerUnwinding(jobs, i, inner[i], k + 1);
      }
    }
  }

  // The innermost function of a builder, around a run of the builders below it.
  lemma CoreStep(sc: Schema, jobs: seq<Job>, db: Database, i: nat)
    requires i < |jobs| && sc.check(jobs[i].mutation).None?
    ensures var h, m := |jobs[i].hooks|, jobs[i].mutation;
            if i + 1 < |jobs| then
              && Obstacle(sc, jobs, i, h) == Obstacle(sc, jobs, i + 1, 0)
              && Trace(sc, jobs, i, h) == Trace(sc, jobs, i + 1, 0)
              && Finals(jobs, i, h) == [Some(m)] + Finals(jobs, i + 1, 0)
              && Outcome(sc, jobs, db, i, h) == Outcome(sc, jobs, db, i + 1, 0)
              && (MarksDone(sc, jobs, db, i, h, i) <==> Outcome(sc, jobs, db, i + 1, 0).None?)
              && (forall k :: i < k < |jobs| ==>
                    (MarksDone(sc, jobs, db, i, h, k) <==> MarksDone(sc, jobs, db, i + 1, 0, k)))
            else
              && Obstacle(sc, jobs, i, h) == None
              && Trace(sc, jobs, i, h) == [Insert]
              && Finals(jobs, i, h) == [Some(m)]
              && Outcome(sc, jobs, db, i, h) == (if db.accepts then None else Some(InsertFailed))
              && (MarksDone(sc, jobs, db, i, h, i) <==> db.accepts)
  {
  }

  // Putting a hook around a run that went on below it.
  lemma HookRan(sc: Schema, db: Database, s: State, t: State, i: nat, h: nat, err: Option<Failure>)
    requires Shaped(s) && i < |s.jobs| && h < |s.jobs[i].hooks|
    requires !s.jobs[i].hooks[h].rejects(s.jobs[i].mutation)
    requires Ran(sc, db, s.(jobs := s.jobs[i := Edited(s.jobs[i], h)], trace := s.trace + [Enter(i, h)]), t, i, h + 1, err)
    ensures Ran(sc, db, s, t.(trace := t.trace + [Exit(i, h)]), i, h,
                if err.None? && s.jobs[i].hooks[h].refuses then Some(HookRefused(i, h)) else err)
  {
    HookStep(sc, s.jobs, db, i, h);
    var inner := s.jobs[i := Edited(s.jobs[i], h)];
    assert inner[..i] == s.jobs[..i];
    assert t.trace + [Exit(i, h)] == s.trace + Trace(sc, s.jobs, i, h);
  }

  /** The state in which a builder's innermost function goes on to the next builder. */
  function WithSpec(sc: Schema, s: State, i: nat): State
    requires |s.specs| == |s.nodes| == |s.jobs| && i < |s.jobs|
  {
    var m := s.jobs[i].mutation;
    s.(specs := s.specs[i := Some(m)], nodes := s.nodes[i := Some(sc.node(m))])
  }

  /** The state after the innermost function has filled in the id. */
  function WithResult(sc: Schema, db: Database, t: State, i: nat): State
    requires |t.ids| == |t.done| == |t.nodes| && i < |t.nodes| && t.nodes[i].Some?
  {
    t.(ids := t.ids[i := Some(RowID(db, i))],
       nodes := t.nodes[i := Some(sc.withID(t.nodes[i].value, RowID(db, i)))],
       done := t.done[i := true])
  }

  // A builder's innermost function around a run of the builders below it.
  lemma CoreRan(sc: Schema, db: Database, s: State, t: State, i: nat, err: Option<Failure>)
    requires Shaped(s) && i + 1 < |s.jobs| && sc.check(s.jobs[i].mutation).None?
    requires Ran(sc, db, WithSpec(sc, s, i), t, i + 1, 0, err)
    ensures t.nodes[i] == Some(sc.node(s.jobs[i].mutation))
    ensures Ran(sc, db, s, if err.None? then WithResult(sc, db, t, i) else t, i, |s.jobs[i].hooks|, err)
  {
    PrefixKept(WithSpec(sc, s, i), t, i);
    CoreRanOutside(sc, db, s, t, i, err);
    CoreRanInside(sc, db, s, t, i, err);
  }

  lemma CoreRanOutside(sc: Schema, db: Database, s: State, t: State, i: nat, err: Option<Failure>)
    requires Shaped(s) && i + 1 < |s.jobs| && sc.check(s.jobs[i].mutation).None?
    requires RanOutside(sc, db, WithSpec(sc, s, i), t, i + 1, 0, err)
    ensures RanOutside(sc, db, s, t, i, |s.jobs[i].hooks|, err)
    ensures err == Outcome(sc, s.jobs, db, i + 1, 0)
  {
    var next, m := WithSpec(sc, s, i), s.jobs[i].mutation;
    assert next.specs[..i + 1] + Finals(s.jobs, i + 1, 0) == s.specs[..i] + ([Some(m)] + Finals(s.jobs, i + 1, 0));
    CoreStep(sc, s.jobs, db, i);
  }

  lemma CoreRanInside(sc: Schema, db: Database, s: State, t: State, i: nat, err: Option<Failure>)
    requires Shaped(s) && i + 1 < |s.jobs| && sc.check(s.jobs[i].mutation).None?
    requires RanInside(sc, db, WithSpec(sc, s, i), t, i + 1, 0, err) && err == Outcome(sc, s.jobs, db, i + 1, 0)
    requires t.nodes[i] == Some(sc.node(s.jobs[i].mutation))
    ensures RanInside(sc, db, s, if err.None? then WithResult(sc, db, t, i) else t, i, |s.jobs[i].hooks|, err)
  {
    PrefixKept(WithSpec(sc, s, i), t, i);
    CoreStep(sc, s.jobs, db, i);
    if err.None? {
      CoreSucceeds(sc, db, s, t, i);
    } else {
      assert SamePrefix(s, t, i);
    }
  }

  lemma CoreSucceeds(sc: Schema, db: Database, s: State, t: State, i: nat)
    requires Shaped(s) && i + 1 < |s.jobs| && sc.check(s.jobs[i].mutation).None?
    requires RanInside(sc, db, WithSpec(sc, s, i), t, i + 1, 0, None) && Outcome(sc, s.jobs, db, i + 1, 0).None?
    requires t.nodes[i] == Some(sc.node(s.jobs[i].mutation))
    ensures RanInside(sc, db, s, WithResult(sc, db, t, i), i, |s.jobs[i].hooks|, None)
  {
    var u := WithResult(sc, db, t, i);
    PrefixKept(WithSpec(sc, s, i), t, i);
    CoreStep(sc, s.jobs, db, i);
    assert SamePrefix(s, u, i);
    SuffixGrows(t.specs, i);
    assert InPlace(sc, db, i, u.jobs[i], u.ids[i], u.specs[i], u.nodes[i]);
  }

  lemma SuffixGrows(specs: seq<Option<Mutation>>, i: nat)
    requires i < |specs|
    ensures specs[i..] == [specs[i]] + specs[i + 1..]
  {
  }

  // What stays up to a builder stays, and so does the builder itself.
  lemma PrefixKept(s: State, t: State, i: nat)
    requires Shaped(s) && Shaped(t) && |s.jobs| == |t.jobs| && i < |s.jobs| && SamePrefix(s, t, i + 1)
    ensures SamePrefix(s, t, i)
    ensures t.jobs[i] == s.jobs[i] && t.ids[i] == s.ids[i] && t.done[i] == s.done[i]
    ensures t.specs[i] == s.specs[i] && t.nodes[i] == s.nodes[i]
  {
    assert t.jobs[..i + 1][..i] == t.jobs[..i] && s.jobs[..i + 1][..i] == s.jobs[..i];
    assert t.ids[..i + 1][..i] == t.ids[..i] && s.ids[..i + 1][..i] == s.ids[..i];
    assert t.done[..i + 1][..i] == t.done[..i] && s.done[..i + 1][..i] == s.done[..i];
    assert t.specs[..i + 1][..i] == t.specs[..i] && s.specs[..i + 1][..i] == s.specs[..i];
    assert t.nodes[..i + 1][..i] == t.nodes[..i] && s.nodes[..i + 1][..i] == s.nodes[..i];
    assert t.jobs[..i + 1][i] == t.jobs[i] && t.ids[..i + 1][i] == t.ids[i] && t.done[..i + 1][i] == t.done[i];
    assert t.specs[..i + 1][i] == t.specs[i] && t.nodes[..i + 1][i] == t.nodes[i];
  }

  // A failed check ends the chain at this builder.
  lemma CheckStops(sc: Schema, db: Database, s: State, i: nat)
    requires Shaped(s) && i < |s.jobs| && sc.check(s.jobs[i].mutation).Some?
    ensures Ran(sc, db, s, s, i, |s.jobs[i].hooks|, Some(CheckFailed(i, sc.check(s.jobs[i].mutation).value)))
  {
  }

  // The last builder's innermost function around the insert.
  lemma LastRan(sc: Schema, db: Database, s: State, i: nat)
    requires Shaped(s) && i + 1 == |s.jobs| && sc.check(s.jobs[i].mutation).None?
    ensures var next := WithSpec(sc, s, i);
            var t := next.(batches := next.batches + [next.specs], trace := next.trace + [Insert]);
            Ran(sc, db, s, if db.accepts then WithResult(sc, db, t, i) else t, i, |s.jobs[i].hooks|,
                if db.accepts then None else Some(InsertFailed))
  {
    CoreStep(sc, s.jobs, db, i);
    var next := WithSpec(sc, s, i);
    assert next.specs == s.specs[..i] + [Some(s.jobs[i].mutation)];
    assert next.specs[i..] == [Some(s.jobs[i].mutation)];
    assert SamePrefix(s, next, i);
  }

  class BulkSave {
    const sc: Schema
    const db: Database
    var jobs: seq<Job>
    var ids: seq<Option<int>>
    var done: seq<bool>
    /** A spec stands here as the mutation it is made of. */
    var specs: seq<Option<Mutation>>
    var nodes: seq<Option<Claim>>
    ghost var trace: seq<Event>
    ghost var batches: seq<seq<Option<Mutation>>>

    constructor (sc: Schema, db: Database, jobs: seq<Job>)
      ensures this.sc == sc && this.db == db
      ensures View() == Fresh(jobs)
    {
      this.sc, this.db, this.jobs := sc, db, jobs;
      ids, done := seq(|jobs|, _ => None), seq(|jobs|, _ => false);
      specs, nodes := seq(|jobs|, _ => None), seq(|jobs|, _ => None);
      trace, batches := [], [];
    }

    ghost function View(): State
      reads this
    {
      State(jobs, ids, done, specs, nodes, trace, batches)
    }

    /** Running the mutator of builder `i` from its hook `h` on. */
    method Mutate(i: nat, h: nat) returns (err: Option<Failure>)
      requires Shaped(View()) && At(jobs, i, h)
      modifies this
      ensures Ran(sc, db, old(View()), View(), i, h, err)
      decreases |jobs| - i, |jobs[i].hooks| - h + 1
    {
      if h == |jobs[i].hooks| {
        err := Core(i);
        return;
      }
      var hook := jobs[i].hooks[h];
      trace := trace + [Enter(i, h)];
      if hook.rejects(jobs[i].mutation) {
        trace := trace + [Exit(i, h)];
        return Some(HookRejected(i, h));
      }
      jobs := jobs[i := Edited(jobs[i], h)];
      err := Mutate(i, h + 1);
      HookRan(sc, db, old(View()), View(), i, h, err);
      trace := trace + [Exit(i, h)];
      if err.None? && hook.refuses {
        err := Some(HookRefused(i, h));
      }
    }

    /** The innermost function of the mutator of builder `i`. */
    method Core(i: nat) returns (err: Option<Failure>)
      requires Shaped(View()) && i < |jobs|
      modifies this
      ensures Ran(sc, db, old(View()), View(), i, |old(jobs)[i].hooks|, err)
      decreases |jobs| - i, 0
    {
      var m := jobs[i].mutation;
      var failed := sc.check(m);
      if failed.Some? {
        CheckStops(sc, db, View(), i);
        return Some(CheckFailed(i, failed.value));
      }
      specs := specs[i := Some(m)];
      nodes := nodes[i := Some(sc.node(m))];
      if i < |jobs| - 1 {
        err := Mutate(i + 1, 0);
        CoreRan(sc, db, old(View()), View(), i, err);
      } else {
        LastRan(sc, db, old(View()), i);
        batches := batches + [specs];
        trace := trace + [Insert];
        err := if db.accepts then None else Some(InsertFailed);
      }
      ghost var ran := View();
      assert Ran(
          sc, db, old(View()), if err.None? then WithResult(sc, db, ran, i) else ran, i, |old(jobs)[i].hooks|, err);
      if err.Some? {
        return;
      }
      ids := ids[i := Some(RowID(db, i))];
      nodes := nodes[i := Some(sc.withID(nodes[i].value, RowID(db, i)))];
      done := done[i := true];
      assert View() == WithResult(sc, db, ran, i);
    }

    /** Save: `broken` is an error the builders were created with. */
    method Save(clocks: nat -> Clock, broken: bool) returns (r: Result<seq<Claim>, Failure>)
      requires View() == Fresh(jobs)
      modifies this
      ensures broken ==> r == Err(Broken) && View() == old(View())
      ensures !broken && |old(jobs)| == 0 ==> r == Ok([]) && View() == old(View())
      ensures !broken && |old(jobs)| > 0 ==> Saved(sc, db, Defaulted(old(jobs), clocks), View(), r)
    {
      if broken {
        return Err(Broken);
      }
      for i := 0 to |jobs|
        invariant View() == Fresh(jobs) && |jobs| == |old(jobs)|
        invariant forall k :: 0 <= k < |jobs| ==>
          jobs[k] == if k < i then DefaultedJob(old(jobs)[k], clocks(k)) else old(jobs)[k]
      {
        var builder := new ClaimBuilder(jobs[i].mutation, jobs[i].hooks);
        builder.Defaults(clocks(i));
        jobs := jobs[i := Job(builder.mutation, builder.hooks)];
      }
      assert jobs == Defaulted(old(jobs), clocks);
      if |jobs| > 0 {
        ghost var s := View();
        var err := Mutate(0, 0);
        RanIsSaved(sc, db, s.jobs, View(), err);
        if err.Some? {
          return Err(err.value);
        }
      }
      return Ok(Values(nodes));
    }
  }

  /** The state a bulk save starts from. */
  ghost function Fresh(jobs: seq<Job>): State {
    var n := |jobs|;
    State(jobs, seq(n, _ => None), seq(n, _ => false), seq(n, _ => None), seq(n, _ => None), [], [])
  }

  function DefaultedJob(job: Job, clock: Clock): Job {
    job.(mutation := WithDefaults(job.mutation, clock))
  }

  function Defaulted(jobs: seq<Job>, clocks: nat -> Clock): (defaulted: seq<Job>)
    ensures |defaulted| == |jobs|
  {
    seq(|jobs|, i requires 0 <= i < |jobs| => DefaultedJob(jobs[i], clocks(i)))
  }

  /** The nodes of a slice that holds no nil. */
  function Values(nodes: seq<Option<Claim>>): (claims: seq<Claim>)
    requires forall k :: 0 <= k < |nodes| ==> nodes[k].Some?
    ensures |claims| == |nodes| && forall k :: 0 <= k < |nodes| ==> claims[k] == nodes[k].value
  {
    seq(|nodes|, k requires 0 <= k < |nodes| => nodes[k].value)
  }

  lemma {:induction false} FinalsAt(jobs: seq<Job>, i: nat, h: nat, k: nat)
    requires i <= k < |jobs| && h <= |jobs[i].hooks|
    ensures var final := Walk(jobs[k], if k == i then h else 0);
            Finals(jobs, i, h)[k - i] == if final.Ok? then Some(final.value) else None
    decreases |jobs| - i
  {
    if i < k {
      FinalsAt(jobs, i + 1, 0, k);
    }
  }

  lemma NodesAreSingles(sc: Schema, db: Database, jobs: seq<Job>, t: State)
    requires |jobs| > 0 && RanInside(sc, db, Fresh(jobs), t, 0, 0, None)
    ensures forall k :: 0 <= k < |jobs| ==>
              && Walk(jobs[k], 0).Ok? && t.nodes[k] == Some(NodeWithID(sc, Walk(jobs[k], 0).value, db, k))
              && t.ids[k] == Some(RowID(db, k))
  {
    assert t.specs[0..] == t.specs;
    forall k | 0 <= k < |jobs|
      ensures Walk(jobs[k], 0).Ok? && t.nodes[k] == Some(NodeWithID(sc, Walk(jobs[k], 0).value, db, k))
      ensures t.ids[k] == Some(RowID(db, k))
    {
      FinalsAt(jobs, 0, 0, k);
      assert InPlace(sc, db, k, t.jobs[k], t.ids[k], t.specs[k], t.nodes[k]);
    }
  }

  lemma RanIsSaved(sc: Schema, db: Database, jobs: seq<Job>, t: State, err: Option<Failure>)
    requires |jobs| > 0 && Ran(sc, db, Fresh(jobs), t, 0, 0, err)
    ensures err.Some? ==> Saved(sc, db, jobs, t, Err(err.value))
    ensures err.None? ==> forall k :: 0 <= k < |t.nodes| ==> t.nodes[k].Some?
    ensures err.None? ==> Saved(sc, db, jobs, t, Ok(Values(t.nodes)))
  {
    var finals, trace := Finals(jobs, 0, 0), Trace(sc, jobs, 0, 0);
    assert [] + finals == finals && [] + trace == trace;
    assert Fresh(jobs).specs[..0] == [];
    if err.None? {
      NodesAreSingles(sc, db, jobs, t);
    }
  }

  /** What a save of the builders `jobs`, their defaults filled in, answers and leaves. */
  ghost predicate Saved(sc: Schema, db: Database, jobs: seq<Job>, t: State, r: Result<seq<Claim>, Failure>) {
    && |jobs| == |t.done| == |t.ids| > 0
    && (r.Err? <==> Outcome(sc, jobs, db, 0, 0).Some?)
    && (r.Err? ==> Outcome(sc, jobs, db, 0, 0) == Some(r.error))
    && (r.Ok? ==> |r.value| == |jobs| && forall k :: 0 <= k < |jobs| ==>
          && Walk(jobs[k], 0).Ok? && r.value[k] == NodeWithID(sc, Walk(jobs[k], 0).value, db, k)
          && t.ids[k] == Some(RowID(db, k)))
    && t.trace == Trace(sc, jobs, 0, 0)
    && t.batches == (if Obstacle(sc, jobs, 0, 0).None? then [Finals(jobs, 0, 0)] else [])
    && (forall k :: 0 <= k < |jobs| ==> (t.done[k] <==> MarksDone(sc, jobs, db, 0, 0, k)))
  }
}
