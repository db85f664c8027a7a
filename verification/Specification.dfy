/** What the engine is for, run one step at a time with nobody in between: per
    key at most one ticket, per ticket a level that only climbs, every
    notification announced once, and deliveries of announced ones only. */
module Specification {
  import opened Common
  import opened TicketPipeline
  import N = TicketAnnouncements

  datatype Spec = Spec(
    rows: map<Key, Option<TicketId>>,
    levels: map<TicketId, Status>,
    degraded: set<TicketId>,             // tickets that ever carried a fallback result
    announced: multiset<Effect>,
    delivered: set<Effect>)

  datatype SpecStep =
    | Stutter
    | Register(key: Key)
    | Open(key: Key, ticket: TicketId)
    | Climb(ticket: TicketId, level: Status, kinds: set<Kind>)
    | Deliver(effect: Effect)
    | Forget(keys: set<Key>, tickets: set<TicketId>)

  const EMPTY := Spec(map[], map[], {}, multiset{}, {})

  ghost function EffectsOf(t: TicketId, kinds: set<Kind>): multiset<Effect> {
    multiset(set k | k in kinds :: Effect(t, k))
  }

  /** Leaving PENDING announces the triage. Reaching ENRICHED from DEGRADED may
      announce the upgrade; so may a ticket already ENRICHED, if it was ever
      degraded. Nothing else moves or announces. */
  predicate ClimbAllowed(from: Status, to: Status, kinds: set<Kind>, wasDegraded: bool) {
    match from
    case PENDING => (to.DEGRADED? || to.ENRICHED?) && kinds == {TRIAGED}
    case DEGRADED => to.ENRICHED? && kinds <= {UPGRADED}
    case ENRICHED => to.ENRICHED? && kinds == {UPGRADED} && wasDegraded
    case FAILED => false
  }

  ghost function Climbed(a: Spec, t: TicketId, level: Status, kinds: set<Kind>): Spec {
    a.(levels := a.levels[t := level],
       degraded := if level.DEGRADED? then a.degraded + {t} else a.degraded,
       announced := a.announced + EffectsOf(t, kinds))
  }

  ghost predicate SpecAllows(a: Spec, step: SpecStep, b: Spec) {
    match step
    case Stutter => b == a
    case Register(k) => k !in a.rows && b == a.(rows := a.rows[k := None])
    case Open(k, t) =>
      && k in a.rows && a.rows[k].None? && t !in a.levels && t !in a.degraded
      && (forall kind :: Effect(t, kind) !in a.announced)
      && b == a.(rows := a.rows[k := Some(t)], levels := a.levels[t := PENDING])
    case Climb(t, level, kinds) =>
      && t in a.levels && ClimbAllowed(a.levels[t], level, kinds, t in a.degraded)
      && (forall kind :: kind in kinds ==> Effect(t, kind) !in a.announced)
      && b == Climbed(a, t, level, kinds)
    case Deliver(e) => e in a.announced && e !in a.delivered && b == a.(delivered := a.delivered + {e})
    case Forget(keys, tickets) =>
      && b == a.(rows := a.rows - keys, levels := a.levels - tickets)
      && forall k :: k in b.rows && b.rows[k].Some? ==> b.rows[k].value !in tickets
  }

  ghost predicate RowsSound(a: Spec) {
    && (forall k :: k in a.rows && a.rows[k].Some? ==> a.rows[k].value in a.levels)
    && (forall k, k' :: k in a.rows && k' in a.rows && k != k' && a.rows[k].Some? ==> a.rows[k] != a.rows[k'])
  }

  ghost predicate AnnouncementsSound(a: Spec) {
    && (forall e :: a.announced[e] <= 1)
    && (forall e :: e in a.delivered ==> e in a.announced)
    && (forall t :: t in a.levels && a.levels[t].DEGRADED? ==> t in a.degraded)
    && (forall t :: Effect(t, UPGRADED) in a.announced ==> t in a.degraded)
    && (forall t :: t in a.levels ==>
          && (Effect(t, TRIAGED) in a.announced <==> !a.levels[t].PENDING?)
          && (Effect(t, UPGRADED) in a.announced ==> a.levels[t].ENRICHED?))
  }

  ghost predicate SpecInv(a: Spec) {
    RowsSound(a) && AnnouncementsSound(a)
  }

  /** A known ticket stays the key's ticket, its level does not fall, and nothing
      announced or delivered is taken back. */
  ghost predicate Climbs(a: Spec, b: Spec) {
    && (forall k :: k in a.rows && k in b.rows && a.rows[k].Some? ==> b.rows[k] == a.rows[k])
    && (forall t :: t in a.levels && t in b.levels ==> N.Rank(a.levels[t]) <= N.Rank(b.levels[t]))
    && a.degraded <= b.degraded && a.announced <= b.announced && a.delivered <= b.delivered
  }

  /** The specification is safe: its invariant is inductive, tickets are written
      once, levels climb, and announcements and deliveries are never undone. */
  lemma SpecIsSafe(a: Spec, step: SpecStep, b: Spec)
    requires SpecInv(a) && SpecAllows(a, step, b)
    ensures SpecInv(b)
    ensures Climbs(a, b)
  {
    match step
    case Climb(t, level, kinds) => ClimbIsSafe(a, t, level, kinds);
    case Stutter =>
    case Register(_) =>
    case Open(_, _) =>
    case Deliver(_) =>
    case Forget(_, _) =>
  }

  lemma ClimbIsSafe(a: Spec, t: TicketId, level: Status, kinds: set<Kind>)
    requires SpecInv(a) && t in a.levels && ClimbAllowed(a.levels[t], level, kinds, t in a.degraded)
    requires forall kind :: kind in kinds ==> Effect(t, kind) !in a.announced
    ensures SpecInv(Climbed(a, t, level, kinds)) && Climbs(a, Climbed(a, t, level, kinds))
  {
    CountEffects(t, kinds);
  }

  lemma CountEffects(t: TicketId, kinds: set<Kind>)
    ensures forall e :: EffectsOf(t, kinds)[e] == if e.ticket == t && e.kind in kinds then 1 else 0
  {
    var added := set k | k in kinds :: Effect(t, k);
    forall e ensures e in added <==> e.ticket == t && e.kind in kinds {
      assert e == Effect(e.ticket, e.kind);
    }
  }

  // ---- While nothing is forgotten ----

  ghost predicate Grows(a: Spec, b: Spec) {
    Climbs(a, b) && a.rows.Keys <= b.rows.Keys && a.levels.Keys <= b.levels.Keys
  }

  lemma GrowsOn(a: Spec, b: Spec, step: SpecStep, c: Spec)
    requires Grows(a, b) && SpecInv(b) && SpecAllows(b, step, c) && !step.Forget?
    ensures Grows(a, c)
  {
    SpecIsSafe(b, step, c);
    forall t | t in a.levels ensures t in c.levels && N.Rank(a.levels[t]) <= N.Rank(c.levels[t]) {
      assert t in b.levels;
    }
    forall k | k in a.rows ensures k in c.rows && (a.rows[k].Some? ==> c.rows[k] == a.rows[k]) {
      assert k in b.rows;
    }
  }
}
