/** Which retention sweeps the whole engine can bear: exactly those that no caller
    with a ticket and no worker able to repeat an announcement spans. */
module SweepSafety {
  import opened Common
  import opened Specification
  import opened Engine
  import I = Ingestion
  import A = IngestionAgreement
  import P = TicketPipeline
  import N = TicketAnnouncements

  ghost predicate Leaves(e: State, step: Step) {
    !SpecAllows(Abs(e), Mirror(e, step), Abs(Apply(e, step)))
  }

  /** Some run without further sweeps leaves the specification. */
  ghost predicate CanLeave(e: State) {
    exists steps, step: Step :: NoSweeps(steps) && !step.Sweep? && Leaves(Run(e, steps), step)
  }

  lemma {:induction false} SafeNeverLeaves(e: State, steps: seq<Step>, step: Step)
    requires Inv(e) && NoSweeps(steps) && !step.Sweep?
    ensures !Leaves(Run(e, steps), step)
  {
    NoSweepsIsSafe(e, steps);
    InvRun(e, steps);
    assert StepSafe(Run(e, steps), step);
    StepRefines(Run(e, steps), step);
  }

  /** A caller's statements, as steps of the engine. */
  function Lifted(steps: seq<I.Step>): seq<Step> {
    seq(|steps|, i requires 0 <= i < |steps| => Ingest(steps[i]))
  }

  ghost predicate CallersOnly(steps: seq<I.Step>) {
    forall i :: 0 <= i < |steps| ==> !steps[i].Tick? && !steps[i].Prune?
  }

  lemma {:induction false} LiftedRun(e: State, steps: seq<I.Step>)
    requires CallersOnly(steps)
    ensures NoSweeps(Lifted(steps)) && Run(e, Lifted(steps)).ing == I.Run(e.ing, steps)
  {
    if steps == [] {
    } else {
      var n := |steps| - 1;
      LiftedRun(e, steps[..n]);
      assert Lifted(steps)[..n] == Lifted(steps[..n]);
      IngestPart(Run(e, Lifted(steps[..n])), steps[n]);
    }
  }

  lemma IngestPart(e: State, s: I.Step)
    requires !s.Tick? && !s.Prune?
    ensures Apply(e, Ingest(s)).ing == I.Apply(e.ing, s)
  {
  }

  /** A late completion changes which ticket a key names, and no specification
      step does. */
  lemma OverwriteLeaves(e: State, p: Pid)
    requires AboutToOverwrite(e.ing, p)
    ensures Leaves(e, Ingest(I.Next(p, true, I.ADDED)))
  {
    var c, s := e.ing.callers[p], I.Next(p, true, I.ADDED);
    IngestPart(e, s);
    assert I.Apply(e.ing, s).db == I.CompleteKey(e.ing.db, c.key, c.ticket);
    assert Abs(Apply(e, Ingest(s))).rows[c.key] == Some(c.ticket) && Abs(e).rows[c.key] != Some(c.ticket);
  }

  lemma LeavesAfter(e: State, steps: seq<Step>, step: Step)
    requires NoSweeps(steps) && !step.Sweep? && Leaves(Run(e, steps), step)
    ensures CanLeave(e)
  {
  }

  /** The caller is about to write its ticket over another one. */
  predicate AboutToOverwrite(s: I.State, p: Pid) {
    && p in s.callers && s.callers[p].HasJob?
    && s.callers[p].key in s.db.keys && s.callers[p].ticket in s.db.tickets
    && s.db.keys[s.callers[p].key].ticketId != Some(s.callers[p].ticket)
  }

  lemma AnotherClaimsFirst(s: I.State, p: Pid) returns (statements: seq<I.Step>)
    requires p in s.callers && s.callers[p].HasJob? && s.callers[p].key !in s.db.keys
    requires s.callers[p].ticket in s.db.tickets && s.callers[p].ticket < s.db.nextId
    ensures CallersOnly(statements) && AboutToOverwrite(I.Run(s, statements), p)
  {
    var q := A.FreshPid(s.callers.Keys);
    A.AnotherClaims(s, p, q);
    statements := A.ClaimAnew(q, s.callers[p].key);
  }

  /** The statements that bring a caller past its key's deletion to the point of
      overwriting the next row's ticket. */
  lemma SpanningCallerOverwrites(s: I.State, p: Pid) returns (statements: seq<I.Step>)
    requires p in s.callers && (s.callers[p].HasTicket? || s.callers[p].HasJob?) && s.callers[p].key !in s.db.keys
    requires s.callers[p].ticket in s.db.tickets && s.callers[p].ticket < s.db.nextId
    ensures CallersOnly(statements) && AboutToOverwrite(I.Run(s, statements), p)
  {
    if s.callers[p].HasTicket? {
      var n := I.Next(p, true, I.ADDED);
      var s1 := I.Apply(s, n);
      assert s1.db == I.AddJob(s.db, s.callers[p].key, s.callers[p].ticket);
      var rest := AnotherClaimsFirst(s1, p);
      statements := [n] + rest;
      I.RunAppend(s, [], n);
      assert [] + [n] == [n];
      I.RunConcat(s, [n], rest);
    } else {
      statements := AnotherClaimsFirst(s, p);
    }
  }

  lemma SpanningCallerLeaves(e: State, p: Pid)
    requires p in e.ing.callers && (e.ing.callers[p].HasTicket? || e.ing.callers[p].HasJob?)
    requires var c := e.ing.callers[p];
             c.key !in e.ing.db.keys && c.ticket in e.ing.db.tickets && c.ticket < e.ing.db.nextId
    ensures CanLeave(e)
  {
    var statements := SpanningCallerOverwrites(e.ing, p);
    LiftedRun(e, statements);
    OverwriteLeaves(Run(e, Lifted(statements)), p);
    LeavesAfter(e, Lifted(statements), Ingest(I.Next(p, true, I.ADDED)));
  }

  /** A worker that announces again what a sweep deleted. */
  lemma SpanningWorkerLeaves(e: State, p: Pid, x: P.Effect)
    requires p in e.pipe.workers && e.pipe.workers[p].ticket in e.pipe.tickets && N.MayAnnounce(e.pipe.workers[p], x)
    requires x in e.pipe.emitted && x !in e.pipe.outbox
    ensures CanLeave(e)
  {
    var result := P.Classification("", "", "", 0.0);
    var step := Work(P.Commit(p, P.Outcome(P.ENRICHED, P.AI, result), e.ing.db.now));
    assert Inserted(e.pipe, step.action) == Some(x);
    assert Mirror(e, step) == Climb(x.ticket, P.ENRICHED, {x.kind});
    assert x in Abs(e).announced && x == P.Effect(x.ticket, x.kind);
    var none: seq<Step> := [];
    LeavesAfter(e, none, step);
  }

  lemma UnclearSweepLeaves(e: State, d: Deleted)
    requires A.Agreed(e.ing) && I.Prunable(e.ing.db, d.keys, d.tickets, d.events)
    requires !A.CallersClear(e.ing, d.keys, d.tickets)
    ensures CanLeave(WithoutRows(e, d))
  {
    var p :| p in e.ing.callers && (e.ing.callers[p].HasTicket? || e.ing.callers[p].HasJob?)
             && e.ing.callers[p].key in d.keys
             && e.ing.callers[p].ticket !in d.tickets && e.ing.callers[p].ticket in e.ing.db.tickets;
    var after := WithoutRows(e, d);
    assert after.ing == I.State(I.PruneRows(e.ing.db, d.keys, d.tickets, d.events), e.ing.callers);
    SpanningCallerLeaves(after, p);
  }

  lemma RepeatableSweepLeaves(e: State, d: Deleted)
    requires P.EmittedIsOwed(e.pipe) && P.Prunable(e.pipe, d.effects, d.tickets)
    requires !N.PruneSafe(e.pipe, d.effects, d.tickets)
    ensures CanLeave(WithoutRows(e, d))
  {
    var p, x :| p in e.pipe.workers && e.pipe.workers[p].ticket in e.pipe.tickets
                && e.pipe.workers[p].ticket !in d.tickets && N.MayAnnounce(e.pipe.workers[p], x) && x in d.effects;
    var after := WithoutRows(e, d);
    assert after.pipe == e.pipe.(outbox := e.pipe.outbox - d.effects, tickets := e.pipe.tickets - d.tickets);
    SpanningWorkerLeaves(after, p, x);
  }

  lemma UnsafeSweepLeaves(e: State, cutoff: int)
    requires Linked(e) && P.TicketsFollowWrites(e.pipe) && P.EmittedIsOwed(e.pipe) && A.Agreed(e.ing)
    requires !StepSafe(e, Sweep(cutoff))
    ensures CanLeave(Apply(e, Sweep(cutoff)))
  {
    var d := DeletedBy(e, cutoff);
    assert Apply(e, Sweep(cutoff)) == WithoutRows(e, d);
    assert Deletable(e, d) by { SweepIsEnabled(e, cutoff); }
    UnsafeDeletionLeaves(e, d);
  }

  lemma UnsafeDeletionLeaves(e: State, d: Deleted)
    requires A.Agreed(e.ing) && P.EmittedIsOwed(e.pipe) && Deletable(e, d)
    requires !(A.CallersClear(e.ing, d.keys, d.tickets) && N.PruneSafe(e.pipe, d.effects, d.tickets))
    ensures CanLeave(WithoutRows(e, d))
  {
    if !A.CallersClear(e.ing, d.keys, d.tickets) {
      UnclearSweepLeaves(e, d);
    } else {
      RepeatableSweepLeaves(e, d);
    }
  }

  /** A sweep can make the engine leave its specification, in some run without
      further sweeps, exactly when a caller with a ticket or a worker that could
      repeat an announcement spans it. */
  lemma SweepSafeIff(e: State, cutoff: int)
    requires Inv(e)
    ensures StepSafe(e, Sweep(cutoff)) <==> !CanLeave(Apply(e, Sweep(cutoff)))
  {
    var after := Apply(e, Sweep(cutoff));
    if StepSafe(e, Sweep(cutoff)) {
      SweepKeeps(e, cutoff);
      forall steps, step: Step | NoSweeps(steps) && !step.Sweep? ensures !Leaves(Run(after, steps), step) {
        SafeNeverLeaves(after, steps, step);
      }
    } else {
      UnsafeSweepLeaves(e, cutoff);
    }
  }
}
