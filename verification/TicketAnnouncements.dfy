/** One notification per transition: what the pipeline's runs announce, with
    and without retention. */
module TicketAnnouncements {
  import opened Common
  import opened TicketPipeline

  // ---- A ticket's status only climbs ----

  function Rank(s: Status): nat {
    match s case PENDING => 0 case DEGRADED => 1 case ENRICHED => 2 case FAILED => 3
  }

  lemma {:induction false} StatusClimbs(writes: seq<Write>, t: TicketId, n: nat)
    requires HistoryLegal(writes) && n <= |writes|
    ensures Rank(StatusAfter(writes[..n], t)) <= Rank(StatusAfter(writes, t)) <= 2
  {
    if n == |writes| {
      assert writes[..n] == writes;
      if writes != [] { StatusClimbs(writes[..|writes| - 1], t, 0); }
    } else {
      StatusClimbs(writes[..|writes| - 1], t, n);
      assert writes[..|writes| - 1][..n] == writes[..n];
    }
  }

  lemma ReadIsBelow(writes: seq<Write>, t: TicketId, prior: Status)
    requires HistoryLegal(writes) && WasRead(writes, t, prior)
    ensures Rank(prior) <= Rank(StatusAfter(writes, t)) <= 2
  {
    var n :| 0 <= n <= |writes| && StatusAfter(writes[..n], t) == prior;
    StatusClimbs(writes, t, n);
  }

  lemma {:induction false} LegalPrefix(writes: seq<Write>, n: nat)
    requires HistoryLegal(writes) && n <= |writes|
    ensures HistoryLegal(writes[..n])
  {
    if n == |writes| {
      assert writes[..n] == writes;
    } else {
      LegalPrefix(writes[..|writes| - 1], n);
      assert writes[..|writes| - 1][..n] == writes[..n];
    }
  }

  lemma StatusOfLast(writes: seq<Write>, i: nat)
    requires i < |writes|
    ensures StatusAfter(writes[..i + 1], writes[i].ticket) == writes[i].status
  {
  }

  lemma LegalAt(writes: seq<Write>, i: nat)
    requires HistoryLegal(writes) && i < |writes|
    ensures writes[i].status.ENRICHED? ||
              (writes[i].status.DEGRADED? && !StatusAfter(writes[..i], writes[i].ticket).ENRICHED?)
    ensures WasRead(writes[..i], writes[i].ticket, writes[i].prior)
  {
    LegalPrefix(writes, i + 1);
    assert writes[..i + 1][..i] == writes[..i];
  }

  /** ENRICHED is absorbing: in every run, a ticket's committed statuses are
      DEGRADED any number of times and then ENRICHED any number of times. */
  lemma HistoryShape(steps: seq<Step>, i: nat, j: nat)
    requires var w := Run(INIT, steps).writes; i <= j < |w| && w[i].ticket == w[j].ticket
    ensures var w := Run(INIT, steps).writes;
            && (w[i].status.DEGRADED? || w[i].status.ENRICHED?)
            && (w[i].status.ENRICHED? ==> w[j].status.ENRICHED?)
  {
    InvRun(steps);
    var w := Run(INIT, steps).writes;
    LegalAt(w, i);
    LegalPrefix(w, j + 1);
    StatusClimbs(w[..j + 1], w[i].ticket, i + 1);
    assert w[..j + 1][..i + 1] == w[..i + 1];
    StatusOfLast(w, i);
    StatusOfLast(w, j);
  }

  /** Status and source always match, the stored status is the last one
      committed, and attempts counts the commits. */
  lemma TicketRowsFollowHistory(steps: seq<Step>, t: TicketId)
    requires t in Run(INIT, steps).tickets
    ensures var s := Run(INIT, steps); var row := s.tickets[t];
            && (row.status.PENDING? || row.status.DEGRADED? || row.status.ENRICHED?)
            && (row.source == match row.status case DEGRADED => Some(FALLBACK) case ENRICHED => Some(AI) case _ => None)
            && row.status == StatusAfter(s.writes, t) && row.attempts == WriteCount(s.writes, t)
  {
    InvRun(steps);
  }

  // ---- What is announced ----

  lemma {:induction false} TriagedIsOwed(writes: seq<Write>, t: TicketId)
    requires HistoryLegal(writes)
    ensures Owes(writes, Effect(t, TRIAGED)) <==> !StatusAfter(writes, t).PENDING?
  {
    if writes == [] {
    } else {
      var front, last := writes[..|writes| - 1], writes[|writes| - 1];
      TriagedIsOwed(front, t);
      AppendWrite(front, last);
      assert writes == front + [last];
      if last.ticket == t { ReadIsBelow(front, t, last.prior); }
    }
  }

  lemma UpgradedNeedsBoth(writes: seq<Write>, t: TicketId)
    requires HistoryLegal(writes) && Owes(writes, Effect(t, UPGRADED))
    ensures exists i, j :: 0 <= i < j < |writes| && writes[i].ticket == t == writes[j].ticket
                           && writes[i].status.DEGRADED? && writes[j].status.ENRICHED?
    ensures StatusAfter(writes, t).ENRICHED?
  {
    var j :| 0 <= j < |writes| && writes[j].ticket == t && Owed(writes[j].prior, writes[j].status) == Some(UPGRADED);
    LegalAt(writes, j);
    var n :| 0 <= n <= j && StatusAfter(writes[..j][..n], t) == DEGRADED;
    assert writes[..j][..n] == writes[..n];
    var i := WriteBehind(writes[..n], t);
    StatusOfLast(writes, j);
    StatusClimbs(writes, t, j + 1);
  }

  lemma {:induction false} WriteBehind(writes: seq<Write>, t: TicketId) returns (i: nat)
    requires !StatusAfter(writes, t).PENDING?
    ensures i < |writes| && writes[i].ticket == t && writes[i].status == StatusAfter(writes, t)
  {
    i := |writes| - 1;
    if writes[i].ticket != t { i := WriteBehind(writes[..i], t); }
  }

  /** In every run: a ticket has left PENDING exactly when its triage was
      announced. */
  lemma TriagedIffLeftPending(steps: seq<Step>, t: TicketId)
    requires t in Run(INIT, steps).tickets
    ensures var s := Run(INIT, steps); !s.tickets[t].status.PENDING? <==> Effect(t, TRIAGED) in s.emitted
  {
    InvRun(steps);
    TriagedIsOwed(Run(INIT, steps).writes, t);
  }

  /** A run that had read DEGRADED wrote ENRICHED. */
  predicate IsUpgrade(w: Write, t: TicketId) { w.ticket == t && w.prior.DEGRADED? && w.status.ENRICHED? }

  /** In every run: an upgrade is announced exactly when some run that had read
      DEGRADED wrote ENRICHED; then the ticket was committed DEGRADED earlier
      and is ENRICHED now. */
  lemma UpgradedIffReadDegraded(steps: seq<Step>, t: TicketId)
    ensures var s := Run(INIT, steps);
            Effect(t, UPGRADED) in s.emitted <==>
            exists i :: 0 <= i < |s.writes| && IsUpgrade(s.writes[i], t)
    ensures var s := Run(INIT, steps); Effect(t, UPGRADED) in s.emitted ==>
              && (exists i, j :: 0 <= i < j < |s.writes| && s.writes[i].ticket == t == s.writes[j].ticket
                                 && s.writes[i].status.DEGRADED? && s.writes[j].status.ENRICHED?)
              && (t in s.tickets ==> s.tickets[t].status.ENRICHED?)
  {
    InvRun(steps);
    var s := Run(INIT, steps);
    if Owes(s.writes, Effect(t, UPGRADED)) {
      UpgradedNeedsBoth(s.writes, t);
    }
    if i :| 0 <= i < |s.writes| && IsUpgrade(s.writes[i], t) {
      assert Owes(s.writes, Effect(t, UPGRADED));
    }
  }

  // ---- Exactly once ----

  predicate EmittedOnce(emitted: seq<Effect>) {
    forall i, j :: 0 <= i < j < |emitted| ==> emitted[i] != emitted[j]
  }

  /** The worker would announce e if it committed now. */
  predicate MayAnnounce(w: Worker, e: Effect) {
    w.ticket == e.ticket && (if e.kind.TRIAGED? then w.prior.PENDING? else w.prior.DEGRADED?)
  }

  /** Whatever a live worker may announce again is still there to absorb it. */
  ghost predicate Absorbed(s: State) {
    && EmittedOnce(s.emitted)
    && forall p, e :: p in s.workers && s.workers[p].ticket in s.tickets ==>
         e in s.emitted && MayAnnounce(s.workers[p], e) ==> e in s.outbox
  }

  /** A pass deletes no notification that a worker on a surviving ticket read
      too early to know about. */
  ghost predicate PruneSafe(s: State, effects: set<Effect>, tickets: set<TicketId>) {
    forall p, e :: p in s.workers && s.workers[p].ticket in s.tickets && s.workers[p].ticket !in tickets
      ==> MayAnnounce(s.workers[p], e) ==> e !in effects
  }

  ghost predicate StepSafe(s: State, step: Step) {
    step.Prune? && Prunable(s, step.effects, step.tickets) ==> PruneSafe(s, step.effects, step.tickets)
  }

  ghost predicate SafeRun(s: State, steps: seq<Step>) {
    steps == [] ||
    (SafeRun(s, steps[..|steps| - 1]) && StepSafe(Run(s, steps[..|steps| - 1]), steps[|steps| - 1]))
  }

  lemma LoadAbsorbed(s: State, p: Pid, t: TicketId)
    requires Inv(s) && Absorbed(s)
    ensures Absorbed(Apply(s, Load(p, t)))
  {
    if t in s.tickets {
      TriagedIsOwed(s.writes, t);
      if Owes(s.writes, Effect(t, UPGRADED)) { UpgradedNeedsBoth(s.writes, t); }
      forall e | e in s.emitted ensures !MayAnnounce(Worker(t, s.tickets[t].status), e) {
        assert Owes(s.writes, e) && e == Effect(e.ticket, e.kind);
      }
    }
  }

  lemma CommitAbsorbed(s: State, p: Pid, o: Outcome, now: nat)
    requires Absorbed(s)
    ensures Absorbed(Apply(s, Commit(p, o, now)))
  {
    if p in s.workers && FromEnricher(o) && WriteLands(s, s.workers[p], o) {
      var w := s.workers[p];
      if Owed(w.prior, o.status).Some? {
        assert MayAnnounce(w, Effect(w.ticket, Owed(w.prior, o.status).value));
      }
    }
  }

  lemma AbsorbedStep(s: State, step: Step)
    requires Inv(s) && Absorbed(s) && StepSafe(s, step)
    ensures Absorbed(Apply(s, step))
  {
    match step
    case Create(t, now) =>
    case Load(p, t) => LoadAbsorbed(s, p, t);
    case Commit(p, o, now) => CommitAbsorbed(s, p, o, now);
    case Crash(p) =>
    case Prune(effects, tickets) =>
  }

  lemma {:induction false} AbsorbedRun(s: State, steps: seq<Step>)
    requires Inv(s) && Absorbed(s) && SafeRun(s, steps)
    ensures Inv(Run(s, steps)) && Absorbed(Run(s, steps))
  {
    if steps == [] {
    } else {
      AbsorbedRun(s, steps[..|steps| - 1]);
      InvStep(Run(s, steps[..|steps| - 1]), steps[|steps| - 1]);
      AbsorbedStep(Run(s, steps[..|steps| - 1]), steps[|steps| - 1]);
    }
  }

  /** Over every safe run no notification is inserted twice, however stale the
      workers are, and one that was pruned is not inserted again. */
  lemma {:induction false} AnnouncedAtMostOnce(steps: seq<Step>, i: nat, j: nat)
    requires SafeRun(INIT, steps) && i < j < |Run(INIT, steps).emitted|
    ensures Run(INIT, steps).emitted[i] != Run(INIT, steps).emitted[j]
  {
    AbsorbedRun(INIT, steps);
  }

  // ---- The safety condition is exact ----

  ghost predicate NoPrunes(steps: seq<Step>) {
    forall i :: 0 <= i < |steps| ==> !steps[i].Prune?
  }

  lemma {:induction false} NoPrunesIsSafe(s: State, steps: seq<Step>)
    requires NoPrunes(steps)
    ensures SafeRun(s, steps)
  {
    if steps == [] {
    } else {
      NoPrunesIsSafe(s, steps[..|steps| - 1]);
    }
  }

  ghost predicate CanRepeat(s: State) {
    exists steps :: NoPrunes(steps) && !EmittedOnce(Run(s, steps).emitted)
  }

  /** A worker that spans the pass commits an AI result and announces again. */
  lemma SpanningWorkerRepeats(s: State, p: Pid, e: Effect)
    requires p in s.workers && s.workers[p].ticket in s.tickets && MayAnnounce(s.workers[p], e)
    requires e in s.emitted && e !in s.outbox
    ensures CanRepeat(s)
  {
    var commit := Commit(p, Outcome(ENRICHED, AI, Classification("", "", "", 0.0)), 0);
    var again := Apply(s, commit);
    var i :| 0 <= i < |s.emitted| && s.emitted[i] == e;
    assert again.emitted == s.emitted + [e];
    assert again.emitted[i] == again.emitted[|s.emitted|];
    assert [commit][..0] == [];
    assert Run(s, [commit]) == again && NoPrunes([commit]);
  }

  lemma SafePruneNeverRepeats(s: State, effects: set<Effect>, tickets: set<TicketId>)
    requires Inv(s) && Absorbed(s) && Prunable(s, effects, tickets) && PruneSafe(s, effects, tickets)
    ensures !CanRepeat(Apply(s, Prune(effects, tickets)))
  {
    InvStep(s, Prune(effects, tickets));
    AbsorbedStep(s, Prune(effects, tickets));
    forall steps | NoPrunes(steps) ensures EmittedOnce(Run(Apply(s, Prune(effects, tickets)), steps).emitted) {
      NoPrunesIsSafe(Apply(s, Prune(effects, tickets)), steps);
      AbsorbedRun(Apply(s, Prune(effects, tickets)), steps);
    }
  }

  lemma UnsafePruneRepeats(s: State, effects: set<Effect>, tickets: set<TicketId>)
    requires EmittedIsOwed(s) && Prunable(s, effects, tickets) && !PruneSafe(s, effects, tickets)
    ensures CanRepeat(Apply(s, Prune(effects, tickets)))
  {
    var p, e :| p in s.workers && s.workers[p].ticket in s.tickets && s.workers[p].ticket !in tickets
                && MayAnnounce(s.workers[p], e) && e in effects;
    SpanningWorkerRepeats(Apply(s, Prune(effects, tickets)), p, e);
  }

  /** A retention pass causes no second announcement, whatever follows, exactly
      when no worker run on a surviving ticket spans it. */
  lemma PruneSafeIff(s: State, effects: set<Effect>, tickets: set<TicketId>)
    requires Inv(s) && Absorbed(s) && Prunable(s, effects, tickets)
    ensures PruneSafe(s, effects, tickets) <==> !CanRepeat(Apply(s, Prune(effects, tickets)))
  {
    if PruneSafe(s, effects, tickets) {
      SafePruneNeverRepeats(s, effects, tickets);
    } else {
      UnsafePruneRepeats(s, effects, tickets);
    }
  }

  /** With retention off the notifications inserted are the rows of the outbox. */
  lemma {:induction false} OutboxHoldsAllEmitted(steps: seq<Step>)
    requires NoPrunes(steps)
    ensures forall e :: e in Run(INIT, steps).emitted <==> e in Run(INIT, steps).outbox
  {
    if steps == [] {
    } else {
      OutboxHoldsAllEmitted(steps[..|steps| - 1]);
      assert !steps[|steps| - 1].Prune?;
    }
  }

  // ---- Upgrades, when one ticket's jobs run one at a time ----

  /** No two runs on this ticket overlap; runs on other tickets may. */
  ghost predicate SerialFor(s: State, steps: seq<Step>, t: TicketId) {
    steps == [] ||
    var before, last := Run(s, steps[..|steps| - 1]), steps[|steps| - 1];
    && SerialFor(s, steps[..|steps| - 1], t)
    && (last.Load? && last.ticket == t ==> forall p :: p in before.workers ==> before.workers[p].ticket != t)
  }

  /** At most one worker is on the ticket, and its read is up to date. */
  ghost predicate PriorsFresh(s: State, t: TicketId) {
    && (forall p, q :: p in s.workers && q in s.workers && s.workers[p].ticket == t == s.workers[q].ticket ==> p == q)
    && (forall p :: p in s.workers && s.workers[p].ticket == t ==> s.workers[p].prior == StatusAfter(s.writes, t))
  }

  ghost predicate WritesFresh(writes: seq<Write>, t: TicketId) {
    writes == [] ||
    var front, last := writes[..|writes| - 1], writes[|writes| - 1];
    WritesFresh(front, t) && (last.ticket == t ==> last.prior == StatusAfter(front, t))
  }

  lemma FreshStep(s: State, step: Step, t: TicketId)
    requires Inv(s) && PriorsFresh(s, t) && WritesFresh(s.writes, t)
    requires step.Load? && step.ticket == t ==> forall p :: p in s.workers ==> s.workers[p].ticket != t
    ensures PriorsFresh(Apply(s, step), t) && WritesFresh(Apply(s, step).writes, t)
  {
    match step
    case Commit(p, o, now) => if p in s.workers { FreshCommit(s, p, o, now, t); }
    case Create(_, _) =>
    case Load(_, _) =>
    case Crash(_) =>
    case Prune(_, _) =>
  }

  lemma FreshCommit(s: State, p: Pid, o: Outcome, now: nat, t: TicketId)
    requires PriorsFresh(s, t) && WritesFresh(s.writes, t) && p in s.workers
    ensures PriorsFresh(Apply(s, Commit(p, o, now)), t) && WritesFresh(Apply(s, Commit(p, o, now)).writes, t)
  {
    var w := Written(s.workers[p], o, now);
    AppendWrite(s.writes, w);
    assert (s.writes + [w])[..|s.writes|] == s.writes;
  }

  lemma {:induction false} FreshRun(steps: seq<Step>, t: TicketId)
    requires SerialFor(INIT, steps, t)
    ensures PriorsFresh(Run(INIT, steps), t) && WritesFresh(Run(INIT, steps).writes, t)
  {
    if steps == [] {
    } else {
      FreshRun(steps[..|steps| - 1], t);
      InvRun(steps[..|steps| - 1]);
      FreshStep(Run(INIT, steps[..|steps| - 1]), steps[|steps| - 1], t);
    }
  }

  ghost predicate Wrote(writes: seq<Write>, t: TicketId, status: Status) {
    exists i :: 0 <= i < |writes| && writes[i].ticket == t && writes[i].status == status
  }

  lemma {:induction false} FreshUpgradeIsOwed(writes: seq<Write>, t: TicketId)
    requires HistoryLegal(writes) && WritesFresh(writes, t)
    requires Wrote(writes, t, DEGRADED) && StatusAfter(writes, t).ENRICHED?
    ensures Owes(writes, Effect(t, UPGRADED))
  {
    var front, last := writes[..|writes| - 1], writes[|writes| - 1];
    assert writes == front + [last];
    AppendWrite(front, last);
    var i :| 0 <= i < |writes| && writes[i].ticket == t && writes[i].status == DEGRADED;
    if i < |front| {
      assert front[i] == writes[i];
      StatusOfLast(front, i);
      StatusClimbs(front, t, i + 1);
      assert Wrote(front, t, DEGRADED);
      if StatusAfter(front, t).ENRICHED? { FreshUpgradeIsOwed(front, t); }
    }
  }

  /** When one ticket's jobs run one at a time, whatever other tickets' jobs do,
      its upgrade is announced exactly when it was committed DEGRADED and later
      ENRICHED. */
  lemma {:induction false} SerialUpgradesAreAnnounced(steps: seq<Step>, t: TicketId)
    requires SerialFor(INIT, steps, t)
    ensures var s := Run(INIT, steps);
            Effect(t, UPGRADED) in s.emitted <==> Wrote(s.writes, t, DEGRADED) && Wrote(s.writes, t, ENRICHED)
  {
    InvRun(steps);
    FreshRun(steps, t);
    var w := Run(INIT, steps).writes;
    if Owes(w, Effect(t, UPGRADED)) {
      UpgradedNeedsBoth(w, t);
    }
    if Wrote(w, t, DEGRADED) && Wrote(w, t, ENRICHED) {
      var j :| 0 <= j < |w| && w[j].ticket == t && w[j].status == ENRICHED;
      StatusOfLast(w, j);
      StatusClimbs(w, t, j + 1);
      FreshUpgradeIsOwed(w, t);
    }
  }

  lemma RunAppend(s: State, steps: seq<Step>, step: Step)
    ensures Run(s, steps + [step]) == Apply(Run(s, steps), step)
  {
    assert (steps + [step])[..|steps|] == steps;
  }

  function Overlapped(c: Classification): seq<Write> {
    [Write(0, PENDING, DEGRADED, FALLBACK, c, 0), Write(0, PENDING, ENRICHED, AI, c, 0)]
  }

  /** Two workers read PENDING; one commits a fallback and then the other an AI
      result. */
  lemma OverlappingWrites(c: Classification)
    ensures var s3 := Apply(Apply(Apply(INIT, Create(0, 0)), Load(1, 0)), Load(2, 0));
            var s5 := Apply(Apply(s3, Commit(1, Outcome(DEGRADED, FALLBACK, c), 0)),
                Commit(2, Outcome(ENRICHED, AI, c), 0));
            && s5.writes == Overlapped(c)
            && s5.emitted == [Effect(0, TRIAGED)]
  {
    var s3 := Apply(Apply(Apply(INIT, Create(0, 0)), Load(1, 0)), Load(2, 0));
    assert s3.workers[1] == Worker(0, PENDING) && s3.workers[2] == Worker(0, PENDING);
    var s4 := Apply(s3, Commit(1, Outcome(DEGRADED, FALLBACK, c), 0));
    assert s4.writes == [Overlapped(c)[0]] && s4.emitted == [Effect(0, TRIAGED)];
    assert s4.workers[2] == Worker(0, PENDING);
  }

  lemma RunFive(s: State, a: Step, b: Step, c: Step, d: Step, e: Step)
    ensures Run(s, [a] + [b] + [c] + [d] + [e]) == Apply(Apply(Apply(Apply(Apply(s, a), b), c), d), e)
  {
    RunAppend(s, [], a);
    assert [] + [a] == [a];
    RunAppend(s, [a], b);
    RunAppend(s, [a] + [b], c);
    RunAppend(s, [a] + [b] + [c], d);
    RunAppend(s, [a] + [b] + [c] + [d], e);
  }

  lemma OverlappingRun() returns (steps: seq<Step>)
    ensures Run(INIT, steps).writes == Overlapped(Classification("", "", "", 0.0))
    ensures Run(INIT, steps).emitted == [Effect(0, TRIAGED)]
  {
    var c := Classification("", "", "", 0.0);
    var fallback, ai := Commit(1, Outcome(DEGRADED, FALLBACK, c), 0), Commit(2, Outcome(ENRICHED, AI, c), 0);
    steps := [Create(0, 0)] + [Load(1, 0)] + [Load(2, 0)] + [fallback] + [ai];
    OverlappingWrites(c);
    RunFive(INIT, Create(0, 0), Load(1, 0), Load(2, 0), fallback, ai);
  }

  /** Without that, an upgrade can go unannounced. */
  lemma StalePriorHidesUpgrade()
    ensures exists steps :: var s := Run(INIT, steps);
              Wrote(s.writes, 0, DEGRADED) && Wrote(s.writes, 0, ENRICHED) && Effect(0, UPGRADED) !in s.emitted
  {
    var steps := OverlappingRun();
    var w := Run(INIT, steps).writes;
    assert w[0].ticket == w[1].ticket == 0 && w[0].status == DEGRADED && w[1].status == ENRICHED;
    assert Wrote(w, 0, DEGRADED) && Wrote(w, 0, ENRICHED);
  }

  // ---- From which states an upgrade can still be lost ----

  /** The ticket is enriched and its upgrade was not announced. */
  predicate Hidden(s: State, t: TicketId) {
    t in s.tickets && s.tickets[t].status.ENRICHED? && Effect(t, UPGRADED) !in s.emitted
  }

  ghost predicate ReadPending(s: State, t: TicketId) {
    exists p :: p in s.workers && s.workers[p].ticket == t && s.workers[p].prior.PENDING?
  }

  /** Every worker on the ticket knows it was degraded, or its upgrade is out. */
  ghost predicate UpgradeSafe(s: State, t: TicketId) {
    && t in s.tickets && !s.tickets[t].status.PENDING? && !ReadPending(s, t)
    && (s.tickets[t].status.ENRICHED? ==> Effect(t, UPGRADED) in s.emitted)
  }

  lemma UpgradeSafeStep(s: State, step: Step, t: TicketId)
    requires Inv(s) && UpgradeSafe(s, t) && !step.Prune?
    ensures UpgradeSafe(Apply(s, step), t)
  {
    var after := Apply(s, step);
    forall p | p in after.workers && after.workers[p].ticket == t ensures !after.workers[p].prior.PENDING? {
      if p in s.workers { assert after.workers[p] == s.workers[p]; }
    }
    if step.Commit? && step.p in s.workers && FromEnricher(step.outcome) {
      UpgradeSafeCommit(s.(workers := s.workers - {step.p}), s.workers[step.p], step.outcome, step.now, t);
    }
  }

  lemma UpgradeSafeCommit(s: State, w: Worker, o: Outcome, now: nat, t: TicketId)
    requires TicketsFollowWrites(s) && EmittedIsOwed(s) && WasRead(s.writes, w.ticket, w.prior)
    requires UpgradeSafe(s, t) && (w.ticket == t ==> !w.prior.PENDING?) && FromEnricher(o)
    ensures UpgradeSafe(PersistAndEmit(s, w, o, now), t)
  {
    if w.ticket == t { ReadIsBelow(s.writes, t, w.prior); }
    assert PersistAndEmit(s, w, o, now).workers == s.workers;
  }

  lemma {:induction false} UpgradeSafeRun(s: State, steps: seq<Step>, t: TicketId)
    requires Inv(s) && UpgradeSafe(s, t) && NoPrunes(steps)
    ensures Inv(Run(s, steps)) && UpgradeSafe(Run(s, steps), t)
  {
    if steps == [] {
    } else {
      UpgradeSafeRun(s, steps[..|steps| - 1], t);
      InvStep(Run(s, steps[..|steps| - 1]), steps[|steps| - 1]);
      UpgradeSafeStep(Run(s, steps[..|steps| - 1]), steps[|steps| - 1], t);
    }
  }

  /** A worker that read PENDING commits an AI result on a degraded ticket: all
      it owes is the triage. */
  lemma StaleWorkerHides(s: State, p: Pid, t: TicketId) returns (steps: seq<Step>)
    requires Inv(s) && t in s.tickets && s.tickets[t].status.DEGRADED?
    requires p in s.workers && s.workers[p] == Worker(t, PENDING)
    ensures NoPrunes(steps) && Hidden(Run(s, steps), t)
  {
    var commit := Commit(p, Outcome(ENRICHED, AI, Classification("", "", "", 0.0)), 0);
    if Owes(s.writes, Effect(t, UPGRADED)) { UpgradedNeedsBoth(s.writes, t); }
    assert Hidden(Apply(s, commit), t);
    steps := [commit];
    RunAppend(s, [], commit);
    assert [] + [commit] == [commit];
  }

  /** The upgrade of a degraded ticket can still go unannounced, in some run
      without retention, exactly when a worker on it had read PENDING. */
  lemma UpgradeCanHideIff(s: State, t: TicketId)
    requires Inv(s) && t in s.tickets && s.tickets[t].status.DEGRADED?
    ensures (exists steps :: NoPrunes(steps) && Hidden(Run(s, steps), t)) <==> ReadPending(s, t)
  {
    if ReadPending(s, t) {
      var p :| p in s.workers && s.workers[p].ticket == t && s.workers[p].prior.PENDING?;
      var steps := StaleWorkerHides(s, p, t);
    } else {
      forall steps | NoPrunes(steps) ensures !Hidden(Run(s, steps), t) { UpgradeSafeRun(s, steps, t); }
    }
  }
}
