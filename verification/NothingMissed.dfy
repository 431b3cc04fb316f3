/** No row is ever missed unless its entry is lost, exactly when one is, and what it means for a phase that completes. */
module NothingMissed {
  import opened Ids
  import opened World
  import opened Queries
  import opened Joins
  import opened Planners
  import opened Coverage
  import opened Admission
  import opened Phases
  import opened RemovedLists
  import opened PhaseProofs
  import opened CommitProofs
  import opened OutsideSteps
  import opened LoopSteps
  import opened EngineRuns
  import opened TableHolders
  import opened Reads

  /**
   A row the full product has, and the engine does not account for: not on record as it stands in any table, not running,
   not due.
   */
  ghost predicate Missed(sc: Schema, shapes: seq<Shape>, g: Engine, i: nat, row: seq<Entity>)
    requires i < |shapes| == |g.planners| && shapes[i].Valid()
  {
    && row in Specified(g.world, shapes[i].queries) && |row| == |shapes[i].queries|
    && !Recalled(sc, g.world, shapes[i], OnRecord(g), Owner(i, row))
    && Owner(i, row) !in g.flights
    && !Due(shapes[i], g.planners[i], g.world, row)
  }

  ghost predicate NothingIsMissed(sc: Schema, shapes: seq<Shape>, g: Engine)
    requires |g.planners| == |shapes| && forall i :: 0 <= i < |shapes| ==> shapes[i].Valid()
  {
    forall i, row :: 0 <= i < |shapes| ==> !Missed(sc, shapes, g, i, row)
  }

  /** The same, but for the invocations with an entry that was lost. */
  ghost predicate OnlyOrphansAreMissed(sc: Schema, shapes: seq<Shape>, g: Engine)
    requires |g.planners| == |shapes| && forall i :: 0 <= i < |shapes| ==> shapes[i].Valid()
  {
    forall i, row :: 0 <= i < |shapes| && Missed(sc, shapes, g, i, row) ==> Owner(i, row) in g.orphans
  }

  /** On record is a run of the row with every tracked component it reads at its present revision, and every view at its mark. */
  ghost predicate UpToDate(sc: Schema, g: Engine, sh: Shape, i: nat, row: seq<Entity>)
    requires |row| == |sh.queries|
  {
    exists deps :: (Owner(i, row), deps) in OnRecord(g) && Stands(sc, g.world, sh, row, deps)
  }

  ghost predicate AccountedFor(sc: Schema, shapes: seq<Shape>, g: Engine, i: nat, row: seq<Entity>)
    requires i < |shapes| == |g.planners| && shapes[i].Valid() && |row| == |shapes[i].queries|
  {
    UpToDate(sc, g, shapes[i], i, row) || Owner(i, row) in g.flights || Due(shapes[i], g.planners[i], g.world, row)
  }

  lemma RecalledIsUpToDate(sc: Schema, g: Engine, sh: Shape, i: nat, row: seq<Entity>)
    requires |row| == |sh.queries| && Recalled(sc, g.world, sh, OnRecord(g), Owner(i, row))
    ensures UpToDate(sc, g, sh, i, row)
  {
    DepsAreReads(sc, g.world, sh, row);
  }

  /** Unjoined queries enumerate the product itself. */
  lemma SpecifiedRowsAreRows(sc: Schema, w: WorldState, sh: Shape, row: seq<Entity>)
    requires sh.Valid() && Inv(sc, w, {})
    ensures row in Specified(w, sh.queries) <==> IsRow(w, sh, row)
    ensures IsRow(w, sh, row) ==> |row| == |sh.queries|
  {
    assert Readable(w, sh.queries);
    PairDrivenIsPrunedProduct(w, sh.queries);
    BuildMembers(w, sh.queries, [], Paired, row);
  }

  /**
   Over every run, however generations, settles and their hooks overlap, at every moment but while a preemption drops
   its readers: only rows are missed whose entry was dropped or overwritten.
   */
  lemma NoRowIsEverMissed(sc: Schema, shapes: seq<Shape>, states: seq<Engine>, events: seq<Event>, k: nat)
    requires Run(sc, shapes, states, events) && k <= |events|
    ensures |states[k].planners| == |shapes| && forall i :: 0 <= i < |shapes| ==> shapes[i].Valid()
    ensures !states[k].draining ==> OnlyOrphansAreMissed(sc, shapes, states[k])
    ensures !states[k].draining && (forall m, o :: 0 <= m < k ==> !Loses(states[m], events[m], o)) ==> NothingIsMissed(sc, shapes, states[k])
    ensures !states[k].draining ==> forall i, row ::
              0 <= i < |shapes| && row in Specified(states[k].world, shapes[i].queries) && Owner(i, row) !in states[k].orphans ==>
                |row| == |shapes[i].queries| && AccountedFor(sc, shapes, states[k], i, row)
  {
    RunKeepsOk(sc, shapes, states, events, k);
    if !states[k].draining {
      forall i, row | 0 <= i < |shapes| && row in Specified(states[k].world, shapes[i].queries) && Owner(i, row) !in states[k].orphans
        ensures |row| == |shapes[i].queries| && AccountedFor(sc, shapes, states[k], i, row)
      {
        OkAccounts(sc, shapes, states[k], i, row);
      }
    }
    if !states[k].draining { OkMissesOnlyOrphans(sc, shapes, states[k]); }
    if forall m, o :: 0 <= m < k ==> !Loses(states[m], events[m], o) {
      forall o ensures o !in states[k].orphans {
        if o in states[k].orphans { var m := OrphanWasLost(sc, shapes, states, events, k, o); }
      }
    }
  }

  lemma OkMissesOnlyOrphans(sc: Schema, shapes: seq<Shape>, g: Engine)
    requires Ok(sc, shapes, g) && !g.draining
    ensures OnlyOrphansAreMissed(sc, shapes, g)
  {
    forall i, row | 0 <= i < |shapes| && Missed(sc, shapes, g, i, row) ensures Owner(i, row) in g.orphans {
      SpecifiedRowsAreRows(sc, g.world, shapes[i], row);
      ViewEvolves(sc, shapes, g, i);
      CatchesUp(sc, ViewOf(g, i), g.world, i, shapes[i], g.planners[i], OnRecord(g), Excused(g));
      NothingDisturbed(g.world, shapes[i], row);
    }
  }

  lemma OkAccounts(sc: Schema, shapes: seq<Shape>, g: Engine, i: nat, row: seq<Entity>)
    requires Ok(sc, shapes, g) && !g.draining && i < |shapes|
    requires row in Specified(g.world, shapes[i].queries) && Owner(i, row) !in g.orphans
    ensures |row| == |shapes[i].queries| && AccountedFor(sc, shapes, g, i, row)
  {
    OkMissesOnlyOrphans(sc, shapes, g);
    SpecifiedRowsAreRows(sc, g.world, shapes[i], row);
    assert !Missed(sc, shapes, g, i, row);
    if Recalled(sc, g.world, shapes[i], OnRecord(g), Owner(i, row)) { RecalledIsUpToDate(sc, g, shapes[i], i, row); }
  }

  /** What a table dropped or overwritten in a step takes along, as far as it matters. */
  ghost predicate OnlyThere(sc: Schema, shapes: seq<Shape>, g: Engine, h: Engine, gone: Memo, i: nat, row: seq<Entity>)
    requires i < |shapes| == |g.planners| && shapes[i].Valid()
  {
    && IsRow(g.world, shapes[i], row) && |row| == |shapes[i].queries| && MemoCurrent(sc, g.world, shapes[i], gone, Owner(i, row))
    && !Recalled(sc, g.world, shapes[i], OnRecord(h), Owner(i, row))
    && Owner(i, row) !in g.flights && !Due(shapes[i], g.planners[i], g.world, row)
  }

  /**
   The exact price of losing a table, however it is lost: it misses the matching rows that stood on record there and
   nowhere else, and were neither running nor due.
   */
  lemma LossMissesIff(sc: Schema, shapes: seq<Shape>, g: Engine, h: Engine, gone: Memo)
    requires Ok(sc, shapes, g) && h.world == g.world && h.planners == g.planners && h.flights == g.flights
    requires OnRecord(h) <= OnRecord(g) <= OnRecord(h) + Records(gone)
    ensures forall i, row :: 0 <= i < |shapes| ==>
              (Missed(sc, shapes, h, i, row) <==> Missed(sc, shapes, g, i, row) || OnlyThere(sc, shapes, g, h, gone, i, row))
    ensures NothingIsMissed(sc, shapes, g) ==>
              (NothingIsMissed(sc, shapes, h) <==> forall i, row :: 0 <= i < |shapes| ==> !OnlyThere(sc, shapes, g, h, gone, i, row))
  {
    forall i, row | 0 <= i < |shapes|
      ensures Missed(sc, shapes, h, i, row) <==> Missed(sc, shapes, g, i, row) || OnlyThere(sc, shapes, g, h, gone, i, row)
    {
      SpecifiedRowsAreRows(sc, g.world, shapes[i], row);
      if |row| == |shapes[i].queries| {
        var d := Deps(sc, g.world, shapes[i], row);
        assert (Owner(i, row), d) in Records(gone) <==> MemoCurrent(sc, g.world, shapes[i], gone, Owner(i, row));
      }
    }
  }

  /** A table put back over another: what is missed is what stood only in the one overwritten. */
  lemma PutBackMissesIff(sc: Schema, shapes: seq<Shape>, g: Engine, id: nat)
    requires Ok(sc, shapes, g) && id in g.tasks
    ensures forall i, row :: 0 <= i < |shapes| ==>
              (Missed(sc, shapes, Restored(g, id), i, row) <==>
                 Missed(sc, shapes, g, i, row) || OnlyThere(sc, shapes, g, Restored(g, id), g.store, i, row))
    ensures NothingIsMissed(sc, shapes, g) ==>
              (NothingIsMissed(sc, shapes, Restored(g, id)) <==>
                 forall i, row :: 0 <= i < |shapes| ==> !OnlyThere(sc, shapes, g, Restored(g, id), g.store, i, row))
  {
    TaskRecordsAre(g.tasks, id, g.tasks[id]);
    LossMissesIff(sc, shapes, g, Restored(g, id), g.store);
  }

  /** A settle dropped takes its table along: what is missed is what stood only there. */
  lemma CancelMissesIff(sc: Schema, shapes: seq<Shape>, g: Engine, id: nat)
    requires Ok(sc, shapes, g) && id in g.tasks
    ensures var h := Step(sc, shapes, g, Cancel(id));
      && id !in h.tasks && h.store == g.store
      && (forall i, row :: 0 <= i < |shapes| ==>
            (Missed(sc, shapes, h, i, row) <==> Missed(sc, shapes, g, i, row) || OnlyThere(sc, shapes, g, h, g.tasks[id].memo, i, row)))
  {
    CancelLeaves(sc, shapes, g, id);
    LossMissesIff(sc, shapes, g, Cancelled(g, id), g.tasks[id].memo);
  }

  lemma CancelLeaves(sc: Schema, shapes: seq<Shape>, g: Engine, id: nat)
    requires Fits(shapes, g, Cancel(id))
    ensures var h := Step(sc, shapes, g, Cancel(id));
      && h == Cancelled(g, id) && id !in h.tasks && h.store == g.store && |h.planners| == |shapes|
      && OnRecord(h) <= OnRecord(g) <= OnRecord(h) + Records(g.tasks[id].memo)
  {
    TaskRecordsAre(g.tasks, id, g.tasks[id]);
  }

  /** And a generation's table delivered over another. */
  lemma PublishMissesIff(sc: Schema, shapes: seq<Shape>, g: Engine)
    requires Ok(sc, shapes, g)
    ensures forall i, row :: 0 <= i < |shapes| ==>
              (Missed(sc, shapes, Delivered(g), i, row) <==>
                 Missed(sc, shapes, g, i, row) || OnlyThere(sc, shapes, g, Delivered(g), g.store, i, row))
    ensures NothingIsMissed(sc, shapes, g) ==>
              (NothingIsMissed(sc, shapes, Delivered(g)) <==>
                 forall i, row :: 0 <= i < |shapes| ==> !OnlyThere(sc, shapes, g, Delivered(g), g.store, i, row))
  {
    LossMissesIff(sc, shapes, g, Delivered(g), g.store);
  }

  /**
   What a memo-losing drop misses when nothing else is on record: exactly the matching rows that are not due at that
   moment, so nothing if and only if every matching row's system has an open gate whose next plan names it.
   */
  lemma LoseMissesWhatIsNotDue(sc: Schema, shapes: seq<Shape>, g: Engine)
    requires Ok(sc, shapes, g) && g.phase.None? && OnRecord(Lost(g)) == {}
    ensures forall i, row :: 0 <= i < |shapes| ==>
              (Missed(sc, shapes, Lost(g), i, row) <==> IsRow(g.world, shapes[i], row) && !Due(shapes[i], g.planners[i], g.world, row))
    ensures NothingIsMissed(sc, shapes, Lost(g)) <==>
              forall i, row :: 0 <= i < |shapes| && IsRow(g.world, shapes[i], row) ==> Due(shapes[i], g.planners[i], g.world, row)
  {
    forall i, row | 0 <= i < |shapes|
      ensures Missed(sc, shapes, Lost(g), i, row) <==> IsRow(g.world, shapes[i], row) && !Due(shapes[i], g.planners[i], g.world, row)
    {
      SpecifiedRowsAreRows(sc, g.world, shapes[i], row);
    }
  }

  // ---- holders that do not overlap ----

  /** Each table delivered so far was the only one delivered since it was taken. */
  ghost predicate Undivided(events: seq<Event>, k: nat)
    requires k <= |events|
  {
    forall n :: 0 <= n < k && (events[n].Publish? || events[n].PutBack?) ==>
      exists m :: 0 <= m < n && Answers(events[n], events[m]) && NoneDelivered(events, m, n)
  }

  /**
   It is enough that no table is delivered while another is out, and that none is dropped: an overwriting always is the
   later of two deliveries by holders that overlap.
   */
  lemma UndividedMissesNothing(sc: Schema, shapes: seq<Shape>, states: seq<Engine>, events: seq<Event>, k: nat)
    requires Run(sc, shapes, states, events) && k <= |events| && !states[k].draining
    requires Undivided(events, k) && forall m :: 0 <= m < k ==> !events[m].Lose? && !events[m].Cancel?
    ensures |states[k].planners| == |shapes| && forall i :: 0 <= i < |shapes| ==> shapes[i].Valid()
    ensures NothingIsMissed(sc, shapes, states[k])
  {
    forall n, o | 0 <= n < k ensures !Loses(states[n], events[n], o) {
      if Loses(states[n], events[n], o) {
        var m :| 0 <= m < n && Answers(events[n], events[m]) && NoneDelivered(events, m, n);
        var between := OverwritingNeedsDelivery(sc, shapes, states, events, m, n, o);
        assert false;
      }
    }
    NoRowIsEverMissed(sc, shapes, states, events, k);
  }

  // ---- completed phases ----

  /** Every matching row of the phase's systems is on record with its present dependencies and reads, but for orphans. */
  ghost predicate Converged(sc: Schema, shapes: seq<Shape>, g: Engine) {
    forall i, row :: 0 <= i < |shapes| && g.phase == Some(shapes[i].phase) && shapes[i].Valid()
                     && row in Specified(g.world, shapes[i].queries) && Owner(i, row) !in g.orphans ==>
      && |row| == |shapes[i].queries| && Recalled(sc, g.world, shapes[i], OnRecord(g), Owner(i, row))
      && UpToDate(sc, g, shapes[i], i, row)
  }

  /** With no other table about, on record is in the generation's own. */
  lemma OnlyTable(sc: Schema, shapes: seq<Shape>, g: Engine, i: nat, row: seq<Entity>)
    requires g.store == map[] && g.tasks == map[] && i < |shapes| && |row| == |shapes[i].queries|
    ensures Recalled(sc, g.world, shapes[i], OnRecord(g), Owner(i, row)) <==> MemoCurrent(sc, g.world, shapes[i], g.memo, Owner(i, row))
  {
    assert OnRecord(g) == Records(g.memo);
  }

  /**
   When a phase returns `Completed` and nothing but its own commits has moved the counters during it, it has converged.
   Otherwise exactly the gates still open stand between it and convergence: a row not on record is due.
   */
  lemma CompletedPhaseHasConverged(sc: Schema, shapes: seq<Shape>, states: seq<Engine>, events: seq<Event>, k: nat)
    requires Run(sc, shapes, states, events) && k < |events| && events[k].Complete?
    ensures !states[k].interfered ==> !AnyOpen(shapes, states[k])
    ensures !AnyOpen(shapes, states[k]) ==> Converged(sc, shapes, states[k])
    ensures |states[k].planners| == |shapes| && forall i :: 0 <= i < |shapes| ==> shapes[i].Valid()
    ensures OnlyOrphansAreMissed(sc, shapes, states[k]) && states[k].flights == map[]
  {
    var g := states[k];
    RunKeepsOk(sc, shapes, states, events, k);
    assert Takes(sc, shapes, g, events[k], states[k + 1]);
    OkMissesOnlyOrphans(sc, shapes, g);
    if !AnyOpen(shapes, g) { ShutGatesConverge(sc, shapes, g); }
  }

  lemma ShutGatesConverge(sc: Schema, shapes: seq<Shape>, g: Engine)
    requires |g.planners| == |shapes| && (forall i :: 0 <= i < |shapes| ==> shapes[i].Valid()) && Inv(sc, g.world, {})
    requires OnlyOrphansAreMissed(sc, shapes, g) && g.flights == map[] && !AnyOpen(shapes, g)
    ensures Converged(sc, shapes, g)
  {
    forall i, row | 0 <= i < |shapes| && g.phase == Some(shapes[i].phase) && row in Specified(g.world, shapes[i].queries)
                    && Owner(i, row) !in g.orphans
      ensures |row| == |shapes[i].queries| && Recalled(sc, g.world, shapes[i], OnRecord(g), Owner(i, row))
      ensures UpToDate(sc, g, shapes[i], i, row)
    {
      SpecifiedRowsAreRows(sc, g.world, shapes[i], row);
      assert !Gate(shapes, g, i, g.world);
      assert !Missed(sc, shapes, g, i, row);
      RecalledIsUpToDate(sc, g, shapes[i], i, row);
    }
  }

  /** So when every step from outside waits for a boundary, every phase that completes has converged. */
  lemma BoundaryRuleConverges(sc: Schema, shapes: seq<Shape>, states: seq<Engine>, events: seq<Event>, k: nat)
    requires Run(sc, shapes, states, events) && k < |events| && events[k].Complete?
    requires forall m :: 0 <= m < k ==> Waits(states[m], events[m])
    ensures !AnyOpen(shapes, states[k]) && Converged(sc, shapes, states[k])
  {
    WaitingNeverInterferes(sc, shapes, states, events, k);
    assert Takes(sc, shapes, states[k], events[k], states[k + 1]);
    CompletedPhaseHasConverged(sc, shapes, states, events, k);
  }

  /**
   Settles that overlap neither each other nor a generation do wait: then it is enough that mutations do, and a phase that
   completes has converged in the generation's own table.
   */
  lemma AloneConverges(sc: Schema, shapes: seq<Shape>, states: seq<Engine>, events: seq<Event>, k: nat, i: nat, row: seq<Entity>)
    requires Run(sc, shapes, states, events) && k < |events| && events[k].Complete?
    requires forall m :: 0 <= m <= k ==> Alone(states[m], events[m]) && (events[m].Move? ==> Waits(states[m], events[m]))
    requires i < |shapes| && shapes[i].Valid() && states[k].phase == Some(shapes[i].phase)
    requires row in Specified(states[k].world, shapes[i].queries) && Owner(i, row) !in states[k].orphans
    ensures |row| == |shapes[i].queries| && MemoCurrent(sc, states[k].world, shapes[i], states[k].memo, Owner(i, row))
    ensures Stands(sc, states[k].world, shapes[i], row, states[k].memo[Owner(i, row)])
  {
    forall m | 0 <= m < k ensures Waits(states[m], events[m]) {
      AloneRuns(sc, shapes, states, events, m);
      RunKeepsOk(sc, shapes, states, events, m);
      assert Takes(sc, shapes, states[m], events[m], states[m + 1]);
    }
    BoundaryRuleConverges(sc, shapes, states, events, k);
    AloneRuns(sc, shapes, states, events, k);
    RunKeepsOk(sc, shapes, states, events, k);
    OnlyTable(sc, shapes, states[k], i, row);
    DepsAreReads(sc, states[k].world, shapes[i], row);
  }
}
