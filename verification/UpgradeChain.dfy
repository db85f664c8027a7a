/** The jobs one enqueue can set off (src/pipeline/ticket.processor.ts,
    src/pipeline/pipeline.producer.ts): each run of a job may fail and be
    retried, and a degraded outcome schedules the next upgrade attempt. */
module UpgradeChain {
  import opened Common

  /** attempts: runs per job; upgrades: the cap on upgrade attempts; retries:
      model retries per run. */
  datatype Config = Config(attempts: nat, upgrades: nat, retries: nat)

  /** The jobs of one key by upgrade attempt, 0 being the first job; live jobs
      carry the runs they have left, finished ones still hold their id. */
  datatype State = State(live: map<nat, nat>, held: set<nat>, runs: nat, calls: nat)

  datatype Step =
    | RunJob(level: nat, schedules: bool, completes: bool, calls: nat)
    | IdExpires(level: nat)

  function Start(cfg: Config): State {
    State(map[0 := cfg.attempts], {}, 0, 0)
  }

  /** enqueueUpgrade: suppressed while the id is live or held. */
  function Schedule(cfg: Config, s: State, level: nat): State {
    if level > cfg.upgrades || level in s.live || level in s.held then s
    else s.(live := s.live[level := cfg.attempts])
  }

  predicate CanRun(cfg: Config, s: State, step: Step) {
    step.RunJob? && step.level in s.live && s.live[step.level] >= 1 && step.level <= cfg.upgrades &&
        step.calls <= cfg.retries + 1
  }

  /** One run: it uses up an attempt, may schedule an upgrade (even a run that
      fails afterwards), and ends the job by completing or by being the last. */
  function RunOnce(cfg: Config, s: State, level: nat, schedules: bool, completes: bool, calls: nat): State
    requires level in s.live && s.live[level] >= 1
  {
    var left := s.live[level] - 1;
    var ran := if completes || left == 0
               then s.(live := s.live - {level}, held := s.held + {level})
               else s.(live := s.live[level := left]);
    var counted := ran.(runs := s.runs + 1, calls := s.calls + calls);
    if schedules then Schedule(cfg, counted, level + 1) else counted
  }

  function Apply(cfg: Config, s: State, step: Step): State {
    match step
    case RunJob(level, schedules, completes, calls) =>
      if CanRun(cfg, s, step) then RunOnce(cfg, s, level, schedules, completes, calls) else s
    case IdExpires(level) => s.(held := s.held - {level})
  }

  function Run(cfg: Config, s: State, steps: seq<Step>): State {
    if steps == [] then s else Apply(cfg, Run(cfg, s, steps[..|steps| - 1]), steps[|steps| - 1])
  }

  // ---- Termination without any assumption on held ids ----

  /** The runs a job of this level can still lead to, itself included. */
  function Worth(cfg: Config, level: nat): nat
    decreases cfg.upgrades + 1 - level
  {
    if level > cfg.upgrades then 0 else cfg.attempts * (1 + Worth(cfg, level + 1))
  }

  function Left(live: map<nat, nat>, level: nat): nat {
    if level in live then live[level] else 0
  }

  /** The sum over levels from here of runs left, each with what it may spawn. */
  function Potential(cfg: Config, live: map<nat, nat>, level: nat): nat
    decreases cfg.upgrades + 1 - level
  {
    if level > cfg.upgrades then 0
    else Left(live, level) * (1 + Worth(cfg, level + 1)) + Potential(cfg, live, level + 1)
  }

  lemma {:induction false} PotentialSame(cfg: Config, a: map<nat, nat>, b: map<nat, nat>, level: nat)
    requires forall l :: level <= l <= cfg.upgrades ==> Left(a, l) == Left(b, l)
    ensures Potential(cfg, a, level) == Potential(cfg, b, level)
    decreases cfg.upgrades + 1 - level
  {
    if level > cfg.upgrades {
    } else {
      PotentialSame(cfg, a, b, level + 1);
    }
  }

  lemma {:induction false} PotentialAt(cfg: Config, a: map<nat, nat>, b: map<nat, nat>, level: nat, at: nat)
    requires level <= at <= cfg.upgrades && forall l :: l != at ==> Left(a, l) == Left(b, l)
    ensures Potential(cfg, a, level) - Left(a, at) * (1 + Worth(cfg, at + 1))
            == Potential(cfg, b, level) - Left(b, at) * (1 + Worth(cfg, at + 1))
    decreases cfg.upgrades + 1 - level
  {
    if level == at { PotentialSame(cfg, a, b, level + 1); } else { PotentialAt(cfg, a, b, level + 1, at); }
  }

  lemma ScheduleCost(cfg: Config, s: State, level: nat)
    ensures Potential(cfg, Schedule(cfg, s, level).live, 0) <= Potential(cfg, s.live, 0) + Worth(cfg, level)
  {
    if Schedule(cfg, s, level) != s { PotentialAt(cfg, s.live, Schedule(cfg, s, level).live, 0, level); }
  }

  lemma FewerRuns(a: nat, b: nat, w: nat)
    requires a < b
    ensures a * (1 + w) + 1 + w <= b * (1 + w)
  {
    assert b * (1 + w) == a * (1 + w) + (b - a) * (1 + w);
    assert (b - a) * (1 + w) >= 1 + w by { Grows(b - a, 1 + w); }
  }

  lemma Grows(n: nat, w: nat)
    requires n >= 1
    ensures n * w >= w
  {
  }

  /** Every run uses up at least one unit of potential, whatever it spawns. */
  lemma RunCosts(cfg: Config, s: State, step: Step)
    requires CanRun(cfg, s, step)
    ensures Potential(cfg, Apply(cfg, s, step).live, 0) + 1 <= Potential(cfg, s.live, 0)
  {
    var level := step.level;
    var plain := RunOnce(cfg, s, level, false, step.completes, step.calls);
    PotentialAt(cfg, s.live, plain.live, 0, level);
    FewerRuns(Left(plain.live, level), Left(s.live, level), Worth(cfg, level + 1));
    ScheduleCost(cfg, plain, level + 1);
  }

  lemma {:induction false} RunsWithinPotential(cfg: Config, s: State, steps: seq<Step>)
    ensures Run(cfg, s, steps).runs + Potential(cfg, Run(cfg, s, steps).live, 0) <= s.runs + Potential(cfg, s.live, 0)
  {
    if steps == [] {
    } else {
      var before, last := Run(cfg, s, steps[..|steps| - 1]), steps[|steps| - 1];
      RunsWithinPotential(cfg, s, steps[..|steps| - 1]);
      if CanRun(cfg, before, last) { RunCosts(cfg, before, last); }
    }
  }

  /** However its jobs fail, are retried and schedule upgrades, and even if ids
      of finished jobs expire at once, the chain of one enqueue makes at most
      Worth(0) runs: attempts + attempts^2 + ... + attempts^(upgrades + 1). */
  lemma ChainEnds(cfg: Config, steps: seq<Step>)
    ensures Run(cfg, Start(cfg), steps).runs <= Worth(cfg, 0)
  {
    RunsWithinPotential(cfg, Start(cfg), steps);
    PotentialAt(cfg, Start(cfg).live, map[], 0, 0);
    NothingLive(cfg, 0);
  }

  lemma {:induction false} NothingLive(cfg: Config, level: nat)
    ensures Potential(cfg, map[], level) == 0
    decreases cfg.upgrades + 1 - level
  {
    if level > cfg.upgrades {
    } else {
      NothingLive(cfg, level + 1);
    }
  }

  // ---- The bound while finished ids are held ----

  /** The runs a level can still make: its job's, or a whole job not yet added. */
  function Budget(cfg: Config, s: State, level: nat): nat {
    if level in s.live then s.live[level] else if level in s.held then 0 else cfg.attempts
  }

  function Budgets(cfg: Config, s: State, level: nat): nat
    decreases cfg.upgrades + 1 - level
  {
    if level > cfg.upgrades then 0 else Budget(cfg, s, level) + Budgets(cfg, s, level + 1)
  }

  lemma {:induction false} BudgetsFall(cfg: Config, s: State, t: State, level: nat, at: nat)
    requires forall l: nat :: Budget(cfg, t, l) <= Budget(cfg, s, l)
    ensures Budgets(cfg, t, level) <= Budgets(cfg, s, level)
    ensures level <= at <= cfg.upgrades && Budget(cfg, t, at) < Budget(cfg, s, at) ==>
              Budgets(cfg, t, level) < Budgets(cfg, s, level)
    decreases cfg.upgrades + 1 - level
  {
    if level > cfg.upgrades {
    } else {
      BudgetsFall(cfg, s, t, level + 1, at);
    }
  }

  lemma {:induction false} BudgetsAtStart(cfg: Config, level: nat)
    ensures Budgets(cfg, Start(cfg), level) ==
              if level > cfg.upgrades then 0 else cfg.attempts * (cfg.upgrades + 1 - level)
    decreases cfg.upgrades + 1 - level
  {
    if level > cfg.upgrades {
    } else {
      BudgetsAtStart(cfg, level + 1);
    }
  }

  ghost predicate IdsHeld(steps: seq<Step>) {
    forall i :: 0 <= i < |steps| ==> !steps[i].IdExpires?
  }

  lemma {:induction false} RunsWithinBudget(cfg: Config, steps: seq<Step>)
    requires IdsHeld(steps)
    ensures var t := Run(cfg, Start(cfg), steps);
            t.runs + Budgets(cfg, t, 0) <= Budgets(cfg, Start(cfg), 0) && t.calls <= t.runs * (cfg.retries + 1)
  {
    if steps == [] {
    } else {
      var before, last := Run(cfg, Start(cfg), steps[..|steps| - 1]), steps[|steps| - 1];
      RunsWithinBudget(cfg, steps[..|steps| - 1]);
      var after := Apply(cfg, before, last);
      assert !last.IdExpires?;
      if CanRun(cfg, before, last) {
        BudgetsFall(cfg, before, after, 0, last.level);
        OneMore(before.runs, cfg.retries + 1);
      }
    }
  }

  /** While ids of finished jobs are held, each upgrade attempt is scheduled
      once: the chain makes at most attempts * (upgrades + 1) runs, and that
      many times (retries + 1) model calls. */
  lemma ChainBound(cfg: Config, steps: seq<Step>)
    requires IdsHeld(steps)
    ensures var t := Run(cfg, Start(cfg), steps);
            && t.runs <= cfg.attempts * (cfg.upgrades + 1)
            && t.calls <= cfg.attempts * (cfg.upgrades + 1) * (cfg.retries + 1)
  {
    RunsWithinBudget(cfg, steps);
    BudgetsAtStart(cfg, 0);
    MulMonotone(Run(cfg, Start(cfg), steps).runs, cfg.attempts * (cfg.upgrades + 1), cfg.retries + 1);
  }

  lemma RunAppend(cfg: Config, s: State, steps: seq<Step>, step: Step)
    ensures Run(cfg, s, steps + [step]) == Apply(cfg, Run(cfg, s, steps), step)
  {
    assert (steps + [step])[..|steps|] == steps;
  }

  // ---- When the bound needs no assumption on held ids ----

  ghost predicate WithinLinearBound(cfg: Config, steps: seq<Step>) {
    var t := Run(cfg, Start(cfg), steps);
    && t.runs <= cfg.attempts * (cfg.upgrades + 1)
    && t.calls <= cfg.attempts * (cfg.upgrades + 1) * (cfg.retries + 1)
  }

  lemma {:induction false} CallsPerRun(cfg: Config, steps: seq<Step>)
    ensures Run(cfg, Start(cfg), steps).calls <= Run(cfg, Start(cfg), steps).runs * (cfg.retries + 1)
  {
    if steps == [] {
    } else {
      CallsPerRun(cfg, steps[..|steps| - 1]);
      OneMore(Run(cfg, Start(cfg), steps[..|steps| - 1]).runs, cfg.retries + 1);
    }
  }

  lemma {:induction false} WorthIsLinear(cfg: Config, level: nat)
    requires level <= cfg.upgrades + 1 && cfg.attempts <= 1
    ensures Worth(cfg, level) <= cfg.attempts * (cfg.upgrades + 1 - level)
    decreases cfg.upgrades + 1 - level
  {
    if level == cfg.upgrades + 1 {
    } else {
      WorthIsLinear(cfg, level + 1);
    }
  }

  lemma {:induction false} RunConcat(cfg: Config, s: State, a: seq<Step>, b: seq<Step>)
    ensures Run(cfg, s, a + b) == Run(cfg, Run(cfg, s, a), b)
  {
    if b == [] {
      assert a + b == a;
    } else {
      RunConcat(cfg, s, a, b[..|b| - 1]);
      assert (a + b)[..|a + b| - 1] == a + b[..|b| - 1];
    }
  }

  lemma RunFrom(cfg: Config, s: State, step: Step, rest: seq<Step>)
    ensures Run(cfg, s, [step] + rest) == Run(cfg, Apply(cfg, s, step), rest)
  {
    RunConcat(cfg, s, [step], rest);
    assert [step][..0] == [];
    assert Run(cfg, s, [step]) == Apply(cfg, s, step);
  }

  /** A job can use up every run it has left without scheduling anything. */
  lemma {:induction false} RunOut(cfg: Config, s: State, level: nat, calls: nat) returns (steps: seq<Step>)
    requires level in s.live && s.live[level] >= 1 && level <= cfg.upgrades && calls <= cfg.retries + 1
    ensures IdsHeld(steps) && Run(cfg, s, steps).live == s.live - {level}
    ensures Run(cfg, s, steps).runs == s.runs + s.live[level]
    ensures Run(cfg, s, steps).calls == s.calls + s.live[level] * calls
    decreases Left(s.live, level)
  {
    var step := RunJob(level, false, false, calls);
    var after := Apply(cfg, s, step);
    if s.live[level] == 1 {
      steps := [step] + [];
      RunFrom(cfg, s, step, []);
    } else {
      var rest := RunOut(cfg, after, level, calls);
      steps := [step] + rest;
      RunFrom(cfg, s, step, rest);
      assert after.live - {level} == s.live - {level};
      OneMore(s.live[level] - 1, calls);
    }
  }

  /** The rest of a job that has just scheduled the next level. */
  lemma RunRest(cfg: Config, s: State, level: nat, calls: nat) returns (steps: seq<Step>)
    requires level <= cfg.upgrades && calls <= cfg.retries + 1 && (level in s.live ==> s.live[level] >= 1)
    ensures IdsHeld(steps) && Run(cfg, s, steps).live == s.live - {level}
    ensures Run(cfg, s, steps).runs == s.runs + Left(s.live, level)
    ensures Run(cfg, s, steps).calls == s.calls + Left(s.live, level) * calls
  {
    if level in s.live {
      steps := RunOut(cfg, s, level, calls);
    } else {
      steps := [];
      assert s.live - {level} == s.live;
    }
  }

  /** A fresh job can have every level above it make all its runs. */
  lemma {:induction false} RunAllAbove(cfg: Config, s: State, level: nat, calls: nat) returns (steps: seq<Step>)
    requires cfg.attempts >= 1 && level <= cfg.upgrades && level in s.live && s.live[level] == cfg.attempts
    requires calls <= cfg.retries + 1 && forall l :: level < l ==> l !in s.live && l !in s.held
    ensures IdsHeld(steps) && Run(cfg, s, steps).live == s.live - {level}
    ensures Run(cfg, s, steps).runs == s.runs + AllRuns(cfg, level)
    ensures Run(cfg, s, steps).calls == s.calls + AllRuns(cfg, level) * calls
    decreases cfg.upgrades - level
  {
    if level == cfg.upgrades {
      steps := RunOut(cfg, s, level, calls);
    } else {
      var first := RunJob(level, true, false, calls);
      var s1 := Apply(cfg, s, first);
      assert s1.live[level + 1] == cfg.attempts && Left(s1.live, level) == cfg.attempts - 1;
      var above := RunAllAbove(cfg, s1, level + 1, calls);
      var s2 := Run(cfg, s1, above);
      var last := RunRest(cfg, s2, level, calls);
      assert s2.live - {level} == s.live - {level};
      steps := [first] + (above + last);
      RunFrom(cfg, s, first, above + last);
      RunConcat(cfg, s1, above, last);
      Spread(AllRuns(cfg, level + 1), cfg.attempts, calls);
    }
  }

  /** The runs of all jobs from this level up. */
  function AllRuns(cfg: Config, level: nat): nat
    decreases cfg.upgrades + 1 - level
  {
    if level > cfg.upgrades then 0 else cfg.attempts + AllRuns(cfg, level + 1)
  }

  lemma {:induction false} AllRunsClosed(cfg: Config, level: nat)
    requires level <= cfg.upgrades + 1
    ensures AllRuns(cfg, level) == cfg.attempts * (cfg.upgrades + 1 - level)
    decreases cfg.upgrades + 1 - level
  {
    if level == cfg.upgrades + 1 {
    } else {
      AllRunsClosed(cfg, level + 1);
      OneMore(cfg.upgrades - level, cfg.attempts);
    }
  }

  lemma Spread(above: nat, attempts: nat, calls: nat)
    requires attempts >= 1
    ensures calls + above * calls + (attempts - 1) * calls == (above + attempts) * calls
  {
  }

  /** The bounds are reached while ids are held: every level can make all its
      runs, each with all its model calls. */
  lemma ChainBoundIsTight(cfg: Config) returns (steps: seq<Step>)
    requires cfg.attempts >= 1
    ensures IdsHeld(steps)
    ensures Run(cfg, Start(cfg), steps).runs == cfg.attempts * (cfg.upgrades + 1)
    ensures Run(cfg, Start(cfg), steps).calls == cfg.attempts * (cfg.upgrades + 1) * (cfg.retries + 1)
  {
    steps := RunAllAbove(cfg, Start(cfg), 0, cfg.retries + 1);
    AllRunsClosed(cfg, 0);
  }

  /** Once the id of the finished first upgrade expires, a retried first job
      schedules that upgrade again, after all levels have made all their runs. */
  lemma ExpiredIdsExceedTheBound(cfg: Config) returns (steps: seq<Step>)
    requires cfg.attempts >= 2 && cfg.upgrades >= 1
    ensures Run(cfg, Start(cfg), steps).runs > cfg.attempts * (cfg.upgrades + 1)
  {
    var first := RunJob(0, true, false, 0);
    var s1 := Apply(cfg, Start(cfg), first);
    assert s1.live == map[0 := cfg.attempts - 1, 1 := cfg.attempts];
    var above := RunAllAbove(cfg, s1, 1, 0);
    var s2 := Run(cfg, s1, above);
    assert s2.live == map[0 := cfg.attempts - 1];
    var s3 := Apply(cfg, s2, IdExpires(1));
    var s4 := Apply(cfg, s3, first);
    assert 1 in s4.live && s4.live[1] == cfg.attempts;
    var again := RunOut(cfg, s4, 1, 0);
    AllRunsClosed(cfg, 1);
    steps := [first] + (above + ([IdExpires(1)] + ([first] + again)));
    RunFrom(cfg, Start(cfg), first, above + ([IdExpires(1)] + ([first] + again)));
    RunConcat(cfg, s1, above, [IdExpires(1)] + ([first] + again));
    RunFrom(cfg, s2, IdExpires(1), [first] + again);
    RunFrom(cfg, s3, first, again);
    OneMore(cfg.upgrades, cfg.attempts);
  }

  /** The linear bound holds of every run, whenever finished ids expire, exactly
      when jobs are not retried or no upgrade is ever scheduled. */
  lemma LinearBoundIff(cfg: Config)
    ensures (forall steps :: WithinLinearBound(cfg, steps)) <==> cfg.attempts <= 1 || cfg.upgrades == 0
  {
    if cfg.attempts <= 1 || cfg.upgrades == 0 {
      forall steps ensures WithinLinearBound(cfg, steps) {
        ChainEnds(cfg, steps);
        if cfg.attempts <= 1 { WorthIsLinear(cfg, 0); }
        CallsPerRun(cfg, steps);
        MulMonotone(Run(cfg, Start(cfg), steps).runs, cfg.attempts * (cfg.upgrades + 1), cfg.retries + 1);
      }
    } else {
      var steps := ExpiredIdsExceedTheBound(cfg);
      assert !WithinLinearBound(cfg, steps);
    }
  }
}
