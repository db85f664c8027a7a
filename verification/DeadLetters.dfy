/** Replaying a dead letter (src/pipeline/dlq/dlq.service.ts): flip, enqueue,
    and revert when the enqueue fails, with any number of replayers at once. */
module DeadLetters {
  import opened Common

  datatype Status = PENDING | REPLAYED

  datatype DeadLetter = DeadLetter(status: Status, key: Key, replayedAt: Option<nat>, createdAt: nat)

  function Flipped(d: DeadLetter, now: nat): DeadLetter {
    d.(status := REPLAYED, replayedAt := Some(now))
  }

  function Reverted(d: DeadLetter): DeadLetter {
    d.(status := PENDING, replayedAt := None)
  }

  // ---- One dead letter, many replayers ----

  datatype Replayer = Enqueueing | Reverting

  datatype State = State(
    letter: Option<DeadLetter>,        // None before it is recorded and after it is pruned
    recorded: bool,
    replayers: map<Pid, Replayer>,     // between flip and settle
    succeeded: nat,                    // replays answered with a job id
    lost: nat)                         // replayers that crashed, or found no row to revert

  datatype Step =
    | Record(letter: DeadLetter)
    | Flip(p: Pid, now: nat)
    | Enqueue(p: Pid, ok: bool)
    | Revert(p: Pid)
    | Crash(p: Pid)
    | Prune

  const INIT := State(None, false, map[], 0, 0)

  function Apply(s: State, step: Step): State {
    match step
    case Record(letter) =>
      if s.recorded || !letter.status.PENDING? || letter.replayedAt.Some? then s
      else s.(letter := Some(letter), recorded := true)
    case Flip(p, now) =>
      if p in s.replayers || s.letter.None? || !s.letter.value.status.PENDING? then s      // 404 or 409
      else s.(letter := Some(Flipped(s.letter.value, now)), replayers := s.replayers[p := Enqueueing])
    case Enqueue(p, ok) =>
      if p !in s.replayers || !s.replayers[p].Enqueueing? then s
      else if ok then s.(replayers := s.replayers - {p}, succeeded := s.succeeded + 1)
      else s.(replayers := s.replayers[p := Reverting])
    case Revert(p) =>
      if p !in s.replayers || !s.replayers[p].Reverting? then s
      else if s.letter.None? then s.(replayers := s.replayers - {p}, lost := s.lost + 1)
      else s.(letter := Some(Reverted(s.letter.value)), replayers := s.replayers - {p})
    case Crash(p) =>
      if p !in s.replayers then s else s.(replayers := s.replayers - {p}, lost := s.lost + 1)
    case Prune =>
      if s.letter.None? || !s.letter.value.status.REPLAYED? then s else s.(letter := None)
  }

  function Run(s: State, steps: seq<Step>): State {
    if steps == [] then s else Apply(Run(s, steps[..|steps| - 1]), steps[|steps| - 1])
  }

  /** A letter is REPLAYED for exactly one reason: a replayer is between flip
      and settle, a replay succeeded, or a replayer was lost. */
  ghost predicate Inv(s: State) {
    && |s.replayers| + s.succeeded + s.lost ==
        (if s.recorded && (s.letter.None? || s.letter.value.status.REPLAYED?) then 1 else 0)
    && (s.letter.Some? ==> s.recorded && (s.letter.value.status.PENDING? <==> s.letter.value.replayedAt.None?))
  }

  lemma InvStep(s: State, step: Step)
    requires Inv(s)
    ensures Inv(Apply(s, step))
  {
    if step.Flip? && step.p !in s.replayers {
      assert s.replayers[step.p := Enqueueing].Keys == s.replayers.Keys + {step.p};
    }
    if (step.Enqueue? || step.Revert? || step.Crash?) && step.p in s.replayers {
      assert (s.replayers - {step.p}).Keys == s.replayers.Keys - {step.p};
      assert s.replayers[step.p := Reverting].Keys == s.replayers.Keys;
    }
    KeyCounts(s.replayers);
    KeyCounts(Apply(s, step).replayers);
  }

  lemma KeyCounts(m: map<Pid, Replayer>)
    ensures |m| == |m.Keys|
  {
  }

  lemma {:induction false} InvRun(s: State, steps: seq<Step>)
    requires Inv(s)
    ensures Inv(Run(s, steps))
  {
    if steps == [] {
    } else {
      InvRun(s, steps[..|steps| - 1]);
      InvStep(Run(s, steps[..|steps| - 1]), steps[|steps| - 1]);
    }
  }

  lemma TwoKeys(m: map<Pid, Replayer>, p: Pid, q: Pid)
    requires p in m && q in m && p != q
    ensures |m| >= 2
  {
    KeyCounts(m);
    assert {p, q} <= m.Keys;
    assert m.Keys == {p, q} + (m.Keys - {p, q});
  }

  /** In every run: at most one replayer is between flip and settle, at most one
      replay succeeds, and a letter waiting to be replayed carries no replay
      time. At rest, REPLAYED means one replay succeeded or one replayer was
      lost; so without crashes, exactly one succeeded. */
  lemma ReplayedOnce(steps: seq<Step>, p: Pid, q: Pid)
    ensures var s := Run(INIT, steps); p in s.replayers && q in s.replayers ==> p == q
    ensures var s := Run(INIT, steps);
            && s.succeeded <= 1
            && (s.letter.Some? && s.letter.value.status.PENDING? ==>
                  s.letter.value.replayedAt.None? && s.succeeded == 0 && s.replayers == map[])
            && (s.letter.Some? && s.replayers == map[] && s.lost == 0 ==>
                (s.letter.value.status.REPLAYED? <==> s.succeeded == 1))
            && (s.letter.Some? && s.replayers == map[] ==>
                (s.letter.value.status.REPLAYED? <==> s.succeeded + s.lost == 1))
  {
    InvRun(INIT, steps);
    var s := Run(INIT, steps);
    if p in s.replayers && q in s.replayers && p != q { TwoKeys(s.replayers, p, q); }
    KeyCounts(s.replayers);
    assert |s.replayers| == 0 <==> s.replayers == map[];
  }

  // ---- Retention and replay ----

  /** The letter is gone, nobody is working on it, and no replay succeeded. */
  predicate Vanished(s: State) {
    s.recorded && s.letter.None? && s.replayers == map[] && s.succeeded == 0
  }

  ghost predicate CanVanish(s: State) {
    exists steps :: Vanished(Run(s, steps))
  }

  lemma {:induction false} SucceededStays(s: State, steps: seq<Step>)
    ensures Run(s, steps).succeeded >= s.succeeded
  {
    if steps == [] {
    } else {
      SucceededStays(s, steps[..|steps| - 1]);
    }
  }

  /** Pruning a REPLAYED letter loses it unreplayed in no run exactly when nobody
      is between flip and settle and no replayer was lost: otherwise its replayer
      may still fail to enqueue and find no row to revert, or already crashed. */
  lemma PruneSafeIff(before: seq<Step>)
    requires var s := Run(INIT, before); s.letter.Some? && s.letter.value.status.REPLAYED?
    ensures var s := Run(INIT, before);
            s.replayers == map[] && s.lost == 0 <==> !CanVanish(Apply(s, Prune))
  {
    InvRun(INIT, before);
    var s := Run(INIT, before);
    var pruned := Apply(s, Prune);
    KeyCounts(s.replayers);
    assert |s.replayers| == 0 <==> s.replayers == map[];
    if s.succeeded == 1 {
      forall steps ensures !Vanished(Run(pruned, steps)) { SucceededStays(pruned, steps); }
    } else if s.replayers == map[] {
      assert Run(pruned, []) == pruned;
    } else {
      KeyCounts(s.replayers);
      var p :| p in s.replayers;
      assert forall q :: q in s.replayers ==> q == p by {
        forall q | q in s.replayers ensures q == p { if q != p { TwoKeys(s.replayers, p, q); } }
      }
      var crash := [Crash(p)];
      assert crash[..|crash| - 1] == [] && Run(pruned, []) == pruned;
      assert s.replayers - {p} == map[];
      assert Vanished(Apply(pruned, Crash(p)));
      assert Vanished(Run(pruned, crash));
    }
  }

  // ---- The service ----

  datatype Answer = NOT_FOUND | CONFLICT | REPLAYED_AS(key: Key) | ENQUEUE_FAILED

  class DlqService {
    var letters: map<nat, DeadLetter>
    var queue: set<(Key, nat)>       // replay jobs, by key and dead letter

    constructor ()
      ensures letters == map[] && queue == {}
    {
      letters, queue := map[], {};
    }

    method RecordDeadLetter(id: nat, key: Key, now: nat)
      requires id !in letters
      modifies this`letters
      ensures letters == old(letters)[id := DeadLetter(PENDING, key, None, now)]
    {
      letters := letters[id := DeadLetter(PENDING, key, None, now)];
    }

    /** A replay with no other replayer in between. It succeeds exactly when the
        letter is pending and the enqueue does; anything else leaves the letter
        as it was, though an enqueue may add its job and still throw. */
    method Replay(id: nat, now: nat, adds: bool, answers: bool) returns (answer: Answer)
      requires forall i :: i in letters ==> (letters[i].status.PENDING? <==> letters[i].replayedAt.None?)
      modifies this
      ensures forall i :: i in letters ==> (letters[i].status.PENDING? <==> letters[i].replayedAt.None?)
      ensures answer.NOT_FOUND? <==> id !in old(letters)
      ensures answer.CONFLICT? <==> id in old(letters) && old(letters)[id].status.REPLAYED?
      ensures answer.REPLAYED_AS? <==> id in old(letters) && old(letters)[id].status.PENDING? && adds && answers
      ensures answer.REPLAYED_AS? ==>
                letters == old(letters)[id := old(letters)[id].(status := REPLAYED, replayedAt := Some(now))]
                                      && answer.key == old(letters)[id].key
      ensures !answer.REPLAYED_AS? ==> letters == old(letters)
      ensures queue == if (answer.REPLAYED_AS? || answer.ENQUEUE_FAILED?) && adds
                       then old(queue) + {(old(letters)[id].key, id)} else old(queue)
    {
      if id !in letters { return NOT_FOUND; }
      if !letters[id].status.PENDING? { return CONFLICT; }
      letters := letters[id := Flipped(letters[id], now)];
      var key := letters[id].key;
      if adds { queue := queue + {(key, id)}; }
      if adds && answers { return REPLAYED_AS(key); }
      letters := letters[id := Reverted(letters[id])];
      return ENQUEUE_FAILED;
    }
  }
}
