/** What a bulk save guarantees, for any number of builders and hooks. */
module BulkTheorems {
  import opened Results
  import opened Claims
  import opened BulkCreate

  // ---------------------------------------------------------------- all or nothing

  // The chain gets as far as the insert exactly when every builder gets past its own hooks
  // and checks; otherwise the first builder in order that does not is the one that stops it.
  lemma {:induction false} ObstacleMeaning(sc: Schema, jobs: seq<Job>, i: nat, h: nat)
    requires i < |jobs| && h <= |jobs[i].hooks|
    ensures Obstacle(sc, jobs, i, h).None? <==>
            Prepared(sc, jobs[i], h) && forall k :: i < k < |jobs| ==> Prepared(sc, jobs[k], 0)
    ensures var o := Obstacle(sc, jobs, i, h);
            o.Some? ==>
              && (o.value.HookRejected? || o.value.CheckFailed?)
              && i <= o.value.builder < |jobs|
              && !Prepared(sc, jobs[o.value.builder], if o.value.builder == i then h else 0)
              && (o.value.builder > i ==> Prepared(sc, jobs[i], h))
              && (forall k :: i < k < o.value.builder ==> Prepared(sc, jobs[k], 0))
              && var w := Walk(jobs[o.value.builder], if o.value.builder == i then h else 0);
                 if o.value.HookRejected? then w == Err(o.value.hook)
                 else w.Ok? && sc.check(w.value) == Some(o.value.error)
    decreases |jobs| - i, |jobs[i].hooks| - h
  {
    var job := jobs[i];
    if h < |job.hooks| {
      if !job.hooks[h].rejects(job.mutation) {
        var inner := jobs[i := Edited(job, h)];
        ObstacleMeaning(sc, inner, i, h + 1);
        assert forall k :: i < k < |jobs| ==> inner[k] == jobs[k];
      }
    } else if sc.check(job.mutation).None? && i + 1 < |jobs| {
      ObstacleMeaning(sc, jobs, i + 1, 0);
    }
  }

  /** The failure is that of the innermost hook of the builder that turns success into an error. */
  predicate InnermostRefusal(job: Job, i: nat, e: Failure) {
    && e.HookRefused? && e.builder == i && e.hook < |job.hooks| && job.hooks[e.hook].refuses
    && forall g :: e.hook < g < |job.hooks| ==> !job.hooks[g].refuses
  }

  lemma {:induction false} RefusalMeaning(job: Job, i: nat, h: nat)
    requires h <= |job.hooks|
    ensures Refusal(job, i, h).None? <==> forall g :: h <= g < |job.hooks| ==> !job.hooks[g].refuses
    ensures Refusal(job, i, h).Some? ==> InnermostRefusal(job, i, Refusal(job, i, h).value)
    decreases |job.hooks| - h
  {
    if h < |job.hooks| {
      RefusalMeaning(job, i, h + 1);
    }
  }

  /** Every builder gets past its hooks and its checks. */
  ghost predicate AllPrepared(sc: Schema, jobs: seq<Job>) {
    forall k :: 0 <= k < |jobs| ==> Prepared(sc, jobs[k], 0)
  }

  /** No hook of a builder from `i` on turns success into an error. */
  predicate NoHookRefuses(jobs: seq<Job>, i: nat) {
    forall k, g :: i <= k < |jobs| && 0 <= g < |jobs[k].hooks| ==> !jobs[k].hooks[g].refuses
  }

  lemma InsertIsReached(sc: Schema, jobs: seq<Job>)
    requires |jobs| > 0
    ensures Obstacle(sc, jobs, 0, 0).None? <==> AllPrepared(sc, jobs)
  {
    ObstacleMeaning(sc, jobs, 0, 0);
  }

  lemma {:induction false} UnwindsFreely(jobs: seq<Job>, i: nat)
    requires i < |jobs|
    ensures Unwinding(jobs, i, 0).None? <==> NoHookRefuses(jobs, i)
    ensures var u := Unwinding(jobs, i, 0);
            u.Some? ==>
              && u.value.HookRefused? && i <= u.value.builder < |jobs|
              && InnermostRefusal(jobs[u.value.builder], u.value.builder, u.value)
              && NoHookRefuses(jobs, u.value.builder + 1)
    decreases |jobs| - i
  {
    RefusalMeaning(jobs[i], i, 0);
    if i + 1 < |jobs| {
      UnwindsFreely(jobs, i + 1);
    }
  }

  // A bulk save succeeds exactly when the database takes the batch and each builder could be
  // saved on its own.
  lemma BulkSucceedsIffEachDoes(sc: Schema, db: Database, jobs: seq<Job>)
    requires |jobs| > 0
    ensures Outcome(sc, jobs, db, 0, 0).None? <==>
            db.accepts && forall k :: 0 <= k < |jobs| ==> SavesAlone(sc, jobs[k])
  {
    InsertIsReached(sc, jobs);
    UnwindsFreely(jobs, 0);
    forall k | 0 <= k < |jobs|
      ensures Refusal(jobs[k], 0, 0).None? <==> forall g :: 0 <= g < |jobs[k].hooks| ==> !jobs[k].hooks[g].refuses
    {
      RefusalMeaning(jobs[k], 0, 0);
    }
  }

  // Its nodes are then those the builders answer on their own, up to the ids of the rows.
  lemma BulkNodesAreSingleNodes(sc: Schema, db: Database, jobs: seq<Job>, t: State, r: Result<seq<Claim>, Failure>)
    requires Saved(sc, db, jobs, t, r) && r.Ok?
    ensures |r.value| == |jobs|
    ensures forall k :: 0 <= k < |jobs| ==>
              SavesAlone(sc, jobs[k]) && r.value[k] == SingleNode(sc, jobs[k], 0, RowID(db, k))
  {
    BulkSucceedsIffEachDoes(sc, db, jobs);
  }

  // The batch is sent at most once, only when every builder got past its checks, and then
  // with every builder's spec in order.
  lemma InsertedOnceWithEverySpec(sc: Schema, db: Database, jobs: seq<Job>, t: State, r: Result<seq<Claim>, Failure>)
    requires Saved(sc, db, jobs, t, r)
    ensures |t.batches| <= 1
    ensures |t.batches| == 1 <==> AllPrepared(sc, jobs)
    ensures |t.batches| == 1 ==>
              |t.batches[0]| == |jobs| &&
              forall k :: 0 <= k < |jobs| ==>
                Walk(jobs[k], 0).Ok? && t.batches[0][k] == Some(Walk(jobs[k], 0).value)
  {
    ObstacleMeaning(sc, jobs, 0, 0);
    if |t.batches| == 1 {
      forall k | 0 <= k < |jobs|
        ensures Prepared(sc, jobs[k], 0) && Finals(jobs, 0, 0)[k] == Some(Walk(jobs[k], 0).value)
      {
        FinalsAt(jobs, 0, 0, k);
      }
    }
  }

  // In general a mutation is marked done when the batch went in and no hook of a later
  // builder refused: a failed save can leave rows inserted and mutations done.
  lemma DoneExactly(sc: Schema, db: Database, jobs: seq<Job>, t: State, r: Result<seq<Claim>, Failure>, k: nat)
    requires Saved(sc, db, jobs, t, r) && k < |jobs|
    ensures t.done[k] <==> db.accepts && AllPrepared(sc, jobs) && NoHookRefuses(jobs, k + 1)
  {
    InsertIsReached(sc, jobs);
    if k + 1 < |jobs| {
      UnwindsFreely(jobs, k + 1);
    }
    assert t.done[k] <==> MarksDone(sc, jobs, db, 0, 0, k);
  }

  // All or nothing: a save that succeeds marks every mutation done, and one that fails marks
  // none, exactly when the batch does not go in or no hook turns success into an error.
  lemma AllOrNothing(sc: Schema, db: Database, jobs: seq<Job>, t: State, r: Result<seq<Claim>, Failure>)
    requires Saved(sc, db, jobs, t, r)
    ensures r.Ok? <==> db.accepts && AllPrepared(sc, jobs) && NoHookRefuses(jobs, 0)
    ensures (forall k :: 0 <= k < |jobs| ==> (t.done[k] <==> r.Ok?)) <==>
            !db.accepts || !AllPrepared(sc, jobs) || NoHookRefuses(jobs, 0)
  {
    InsertIsReached(sc, jobs);
    UnwindsFreely(jobs, 0);
    forall k | 0 <= k < |jobs|
      ensures t.done[k] <==> db.accepts && AllPrepared(sc, jobs) && NoHookRefuses(jobs, k + 1)
    {
      DoneExactly(sc, db, jobs, t, r, k);
    }
    assert t.done[|jobs| - 1] <==> db.accepts && AllPrepared(sc, jobs);
  }

  // What the error of a failed save is: the first builder in order that is not prepared, and
  // what stopped it; or the database's; or the innermost hook that refused.
  lemma FailureMeaning(sc: Schema, db: Database, jobs: seq<Job>, t: State, r: Result<seq<Claim>, Failure>)
    requires Saved(sc, db, jobs, t, r) && r.Err?
    ensures r.error == InsertFailed <==> AllPrepared(sc, jobs) && !db.accepts
    ensures r.error.HookRefused? <==> AllPrepared(sc, jobs) && db.accepts
    ensures r.error.HookRefused? ==>
              && r.error.builder < |jobs| && InnermostRefusal(jobs[r.error.builder], r.error.builder, r.error)
              && NoHookRefuses(jobs, r.error.builder + 1)
    ensures !AllPrepared(sc, jobs) ==>
              && (r.error.HookRejected? || r.error.CheckFailed?)
              && r.error.builder < |jobs|
              && (forall k :: 0 <= k < r.error.builder ==> Prepared(sc, jobs[k], 0))
              && var w := Walk(jobs[r.error.builder], 0);
                 if r.error.HookRejected? then w == Err(r.error.hook)
                 else w.Ok? && sc.check(w.value) == Some(r.error.error)
  {
    InsertIsReached(sc, jobs);
    ObstacleMeaning(sc, jobs, 0, 0);
    UnwindsFreely(jobs, 0);
  }

  // What the hooks of a builder do to its mutation: each edits what the one before it left,
  // until one rejects it.
  lemma {:induction false} WalkMeaning(job: Job, h: nat) returns (trail: seq<Mutation>)
    requires h <= |job.hooks|
    ensures trail != [] && |trail| <= |job.hooks| - h + 1 && trail[0] == job.mutation
    ensures forall k :: 0 <= k < |trail| - 1 ==>
              !job.hooks[h + k].rejects(trail[k]) && trail[k + 1] == job.hooks[h + k].edit(trail[k])
    ensures var w, last := Walk(job, h), |trail| - 1;
            if w.Ok? then h + last == |job.hooks| && w.value == trail[last]
            else w.error == h + last < |job.hooks| && job.hooks[h + last].rejects(trail[last])
    decreases |job.hooks| - h
  {
    if h == |job.hooks| || job.hooks[h].rejects(job.mutation) {
      trail := [job.mutation];
    } else {
      var rest := WalkMeaning(Edited(job, h), h + 1);
      trail := [job.mutation] + rest;
      forall k | 0 <= k < |trail| - 1
        ensures !job.hooks[h + k].rejects(trail[k]) && trail[k + 1] == job.hooks[h + k].edit(trail[k])
      {
        if k > 0 {
          assert trail[k] == rest[k - 1] && trail[k + 1] == rest[k];
          assert h + 1 + (k - 1) == h + k;
        }
      }
    }
  }

  // Each node of a bulk save of claims, and its mutation, gets the id the database reports for
  // its own row, and none when there is none; the rest of the node is that of the spec that
  // was sent for it.
  lemma NodesCarryTheirRowIDs(db: Database, jobs: seq<Job>, t: State, r: Result<seq<Claim>, Failure>)
    requires Saved(CLAIMS, db, jobs, t, r) && r.Ok?
    ensures |t.batches| == 1 && |t.batches[0]| == |r.value| == |t.ids| == |jobs|
    ensures forall k :: 0 <= k < |jobs| ==>
              && (db.ids(k).Some? ==> r.value[k].id == db.ids(k).value)
              && (db.ids(k).None? ==> r.value[k].id == 0)
              && t.ids[k] == Some(r.value[k].id)
              && t.batches[0][k].Some?
              && r.value[k] == NodeOf(t.batches[0][k].value).(id := r.value[k].id)
  {
    InsertIsReached(CLAIMS, jobs);
    InsertedOnceWithEverySpec(CLAIMS, db, jobs, t, r);
  }

  const COMPLETE := WithDefaults(
    Mutation(
      Some(1), Some(2), Some("r"), Some("d"), None, None, None, None, None, None, None, None, None, None, None, None,
      None, None, None, None, Some(3), None, None),
    Clock(0, 0, 0))

  const REFUSING := Hook((m: Mutation) => false, (m: Mutation) => m, true)

  // Two claims, the first with a hook that fails once the mutator below it has succeeded: the
  // save fails, yet both rows are in and both mutations are done.
  lemma FailedSaveLeavesRows(db: Database, t: State, r: Result<seq<Claim>, Failure>)
    requires db.accepts
    requires Saved(CLAIMS, db, [Job(COMPLETE, [REFUSING]), Job(COMPLETE, [])], t, r)
    ensures r == Err(HookRefused(0, 0)) && t.done[0] && t.done[1]
    ensures t.batches == [[Some(COMPLETE), Some(COMPLETE)]]
  {
    var jobs := [Job(COMPLETE, [REFUSING]), Job(COMPLETE, [])];
    assert Walk(jobs[0], 0) == Walk(Edited(jobs[0], 0), 1) == Ok(COMPLETE);
    assert Walk(jobs[1], 0) == Ok(COMPLETE);
    assert AllPrepared(CLAIMS, jobs);
    InsertIsReached(CLAIMS, jobs);
    FinalsAt(jobs, 0, 0, 0);
    FinalsAt(jobs, 0, 0, 1);
    assert Finals(jobs, 0, 0) == [Some(COMPLETE), Some(COMPLETE)];
    assert Unwinding(jobs, 1, 0).None?;
    assert Refusal(jobs[0], 0, 1).None?;
    assert t.done[0] <==> MarksDone(CLAIMS, jobs, db, 0, 0, 0);
    assert t.done[1] <==> MarksDone(CLAIMS, jobs, db, 0, 0, 1);
  }

  // For claims: with builders that have no hooks, the batch is sent exactly when each of them
  // sets the five fields without a default and passes the validators.
  lemma ClaimsReachTheInsert(jobs: seq<Job>, clocks: nat -> Clock)
    requires |jobs| > 0 && forall k :: 0 <= k < |jobs| ==> jobs[k].hooks == []
    ensures Obstacle(CLAIMS, Defaulted(jobs, clocks), 0, 0).None? <==>
            forall k :: 0 <= k < |jobs| ==> Complete(jobs[k].mutation)
  {
    var js := Defaulted(jobs, clocks);
    ObstacleMeaning(CLAIMS, js, 0, 0);
    forall k | 0 <= k < |jobs|
      ensures Prepared(CLAIMS, js[k], 0) <==> Complete(jobs[k].mutation)
    {
      ChecksAfterDefaults(jobs[k].mutation, clocks(k));
      assert js[k].hooks == [] && Walk(js[k], 0) == Ok(WithDefaults(jobs[k].mutation, clocks(k)));
    }
  }

  /** What a caller has to provide for a claim to be accepted. */
  predicate Complete(m: Mutation) {
    && m.claimGroupID.Some? && m.relayProviderID.Some? && m.requestID.Some?
    && m.canonicalDigest.Some? && m.expiresAt.Some?
    && m.requestID.value != "" && m.canonicalDigest.value != ""
    && (m.status.Some? ==> ValidStatus(m.status.value))
  }

  // ---------------------------------------------------------------- the trace of the hooks

  /** The hooks in the order in which they are entered when none rejects. */
  function Entries(jobs: seq<Job>, i: nat, h: nat): seq<Event>
    requires i < |jobs| && h <= |jobs[i].hooks|
    decreases |jobs| - i, |jobs[i].hooks| - h
  {
    if h < |jobs[i].hooks| then [Enter(i, h)] + Entries(jobs, i, h + 1)
    else if i + 1 < |jobs| then Entries(jobs, i + 1, 0)
    else []
  }

  /** The hooks that are entered: up to the first obstacle. */
  function Entered(sc: Schema, jobs: seq<Job>, i: nat, h: nat): seq<Event>
    requires i < |jobs| && h <= |jobs[i].hooks|
    decreases |jobs| - i, |jobs[i].hooks| - h
  {
    var job := jobs[i];
    if h < |job.hooks| then
      [Enter(i, h)] +
      if job.hooks[h].rejects(job.mutation) then [] else Entered(sc, jobs[i := Edited(job, h)], i, h + 1)
    else if sc.check(job.mutation).Some? then []
    else if i + 1 < |jobs| then Entered(sc, jobs, i + 1, 0)
    else []
  }

  /** The exits that answer a list of entries: each of them once, in reverse. */
  function Exits(entries: seq<Event>): (exits: seq<Event>)
    ensures |exits| == |entries|
    ensures forall i :: 0 <= i < |entries| && entries[i].Enter? ==>
              exits[|entries| - 1 - i] == Exit(entries[i].builder, entries[i].hook)
  {
    if entries == [] then []
    else
      Exits(entries[1..]) +
      [if entries[0].Enter? then Exit(entries[0].builder, entries[0].hook) else entries[0]]
  }

  lemma BracketOneMore(e: Event, entered: seq<Event>, inside: seq<Event>)
    requires e.Enter?
    ensures [e] + (entered + inside + Exits(entered)) + [Exit(e.builder, e.hook)] ==
            ([e] + entered) + inside + Exits([e] + entered)
  {
    assert ([e] + entered)[1..] == entered;
  }

  // The trace is well bracketed: the entries, the insert if it was reached, and the exits of
  // exactly those entries in reverse.
  lemma {:induction false} TraceIsBracketed(sc: Schema, jobs: seq<Job>, i: nat, h: nat)
    requires i < |jobs| && h <= |jobs[i].hooks|
    ensures var entered := Entered(sc, jobs, i, h);
            Trace(sc, jobs, i, h) ==
            entered + (if Obstacle(sc, jobs, i, h).None? then [Insert] else []) + Exits(entered)
    decreases |jobs| - i, |jobs[i].hooks| - h
  {
    var job := jobs[i];
    if h == |job.hooks| {
      if sc.check(job.mutation).None? && i + 1 < |jobs| {
        TraceIsBracketed(sc, jobs, i + 1, 0);
      }
    } else if job.hooks[h].rejects(job.mutation) {
      BracketOneMore(Enter(i, h), [], []);
    } else {
      var inner := jobs[i := Edited(job, h)];
      TraceIsBracketed(sc, inner, i, h + 1);
      BracketOneMore(
        Enter(i, h), Entered(sc, inner, i, h + 1),
        if Obstacle(sc, inner, i, h + 1).None? then [Insert] else []);
    }
  }

  // What is entered is a beginning of the full order, and all of it when nothing is in the way.
  lemma {:induction false} EnteredInOrder(sc: Schema, jobs: seq<Job>, i: nat, h: nat)
    requires i < |jobs| && h <= |jobs[i].hooks|
    ensures Entered(sc, jobs, i, h) <= Entries(jobs, i, h)
    ensures Obstacle(sc, jobs, i, h).None? ==> Entered(sc, jobs, i, h) == Entries(jobs, i, h)
    decreases |jobs| - i, |jobs[i].hooks| - h
  {
    var job := jobs[i];
    if h < |job.hooks| {
      if !job.hooks[h].rejects(job.mutation) {
        var inner := jobs[i := Edited(job, h)];
        EnteredInOrder(sc, inner, i, h + 1);
        SameEntries(jobs, inner, i, h + 1);
      }
    } else if sc.check(job.mutation).None? && i + 1 < |jobs| {
      EnteredInOrder(sc, jobs, i + 1, 0);
    }
  }

  lemma {:induction false} SameEntries(jobs: seq<Job>, others: seq<Job>, i: nat, h: nat)
    requires i < |jobs| == |others| && h <= |jobs[i].hooks|
    requires forall k :: 0 <= k < |jobs| ==> others[k].hooks == jobs[k].hooks
    ensures Entries(jobs, i, h) == Entries(others, i, h)
    decreases |jobs| - i, |jobs[i].hooks| - h
  {
    if h < |jobs[i].hooks| {
      SameEntries(jobs, others, i, h + 1);
    } else if i + 1 < |jobs| {
      SameEntries(jobs, others, i + 1, 0);
    }
  }

  predicate Before(a: Event, b: Event) {
    a.Enter? && b.Enter? && (a.builder < b.builder || (a.builder == b.builder && a.hook < b.hook))
  }

  // The full order holds every hook of every builder, builder by builder, hook 0 first.
  lemma {:induction false} EntriesMeaning(jobs: seq<Job>, i: nat, h: nat)
    requires i < |jobs| && h <= |jobs[i].hooks|
    ensures forall p, q :: 0 <= p < q < |Entries(jobs, i, h)| ==> Before(Entries(jobs, i, h)[p], Entries(jobs, i, h)[q])
    ensures forall e :: e in Entries(jobs, i, h) <==>
              e.Enter? && i <= e.builder < |jobs| && e.hook < |jobs[e.builder].hooks| && (e.builder == i ==> h <= e.hook)
    decreases |jobs| - i, |jobs[i].hooks| - h
  {
    if h < |jobs[i].hooks| {
      EntriesMeaning(jobs, i, h + 1);
      var rest := Entries(jobs, i, h + 1);
      forall q | 0 <= q < |rest|
        ensures Before(Enter(i, h), rest[q])
      {
        assert rest[q] in rest;
      }
    } else if i + 1 < |jobs| {
      EntriesMeaning(jobs, i + 1, 0);
    }
  }
}
