/** Canonical payload hashing (src/common/hash/canonical-hash.ts).

    An object is the sequence of its own members in enumeration order, so two
    payloads that differ only in member order are different values here. */
module CanonicalHash {
  import opened Common

  datatype Json =
    | Null
    | Bool(b: bool)
    | Num(n: real)
    | Str(s: string)
    | Arr(items: seq<Json>)
    | Obj(members: seq<Member>)

  datatype Member = Member(key: string, value: Json)

  /** Assigning this name sets an object's prototype and creates no own member. */
  const PROTO := "__proto__"

  predicate Distinct(ms: seq<Member>) {
    forall i, j :: 0 <= i < j < |ms| ==> ms[i].key != ms[j].key
  }

  /** Member names are unique at every depth, as in any parsed object. */
  predicate WellFormed(v: Json) {
    match v
    case Arr(items) => forall i :: 0 <= i < |items| ==> WellFormed(items[i])
    case Obj(ms) => Distinct(ms) && forall i :: 0 <= i < |ms| ==> WellFormed(ms[i].value)
    case _ => true
  }

  function Names(ms: seq<Member>): set<string> {
    set i | 0 <= i < |ms| && ms[i].key != PROTO :: ms[i].key
  }

  /** Equal up to the order of object members at every depth; arrays keep their
      order. A member named PROTO carries no content. */
  predicate SameContent(v: Json, w: Json) {
    match (v, w)
    case (Arr(a), Arr(b)) =>
      |a| == |b| && forall i :: 0 <= i < |a| ==> SameContent(a[i], b[i])
    case (Obj(ms), Obj(ns)) =>
      && Names(ms) == Names(ns)
      && (forall i, j :: 0 <= i < |ms| && 0 <= j < |ns| && ms[i].key == ns[j].key && ms[i].key != PROTO
            ==> SameContent(ms[i].value, ns[j].value))
    case _ => v == w
  }

  // ---- The order of names ----

  /** The order of Array.prototype.sort on strings. */
  predicate Leq(a: string, b: string) {
    a == "" || (b != "" && (a[0] < b[0] || (a[0] == b[0] && Leq(a[1..], b[1..]))))
  }

  predicate Sorted(ks: seq<string>) {
    forall i, j :: 0 <= i < j < |ks| ==> Leq(ks[i], ks[j])
  }

  function Insert(k: string, ks: seq<string>): seq<string> {
    if ks == [] || Leq(k, ks[0]) then [k] + ks else [ks[0]] + Insert(k, ks[1..])
  }

  function Sort(ks: seq<string>): seq<string> {
    if ks == [] then [] else Insert(ks[0], Sort(ks[1..]))
  }

  /** An array index, which engines enumerate first and in numeric order. */
  predicate IsIndex(k: string) {
    && 0 < |k| <= 10 && (forall i :: 0 <= i < |k| ==> '0' <= k[i] <= '9')
    && (k[0] == '0' ==> |k| == 1) && (|k| == 10 ==> Leq(k, "4294967294"))
  }

  function PutIndex(acc: seq<Member>, m: Member): seq<Member> {
    if acc == [] || !IsIndex(acc[0].key) || |m.key| < |acc[0].key|
       || (|m.key| == |acc[0].key| && Leq(m.key, acc[0].key)) then [m] + acc
    else [acc[0]] + PutIndex(acc[1..], m)
  }

  /** acc[key] = value for a name acc does not hold yet. */
  function Assign(acc: seq<Member>, m: Member): seq<Member> {
    if m.key == PROTO then acc else if IsIndex(m.key) then PutIndex(acc, m) else acc + [m]
  }

  function Contents(ms: seq<Member>): map<string, Json> {
    if ms == [] then map[] else Contents(ms[1..])[ms[0].key := ms[0].value]
  }

  /** The reduce over sorted names; ms holds the canonicalized values. */
  function Build(names: seq<string>, ms: map<string, Json>): seq<Member>
    requires forall k :: k in names ==> k in ms
  {
    if names == [] then []
    else
      var last := names[|names| - 1];
      Assign(Build(names[..|names| - 1], ms), Member(last, ms[last]))
  }

  function KeysOf(ms: seq<Member>): seq<string> {
    seq(|ms|, i requires 0 <= i < |ms| => ms[i].key)
  }

  function CanonicalMembers(ms: seq<Member>): seq<Member>
    decreases ms, 0
  {
    seq(|ms|, i requires 0 <= i < |ms| => Member(ms[i].key, Canonicalize(ms[i].value)))
  }

  function Canonicalize(v: Json): Json
    decreases v, 1
  {
    match v
    case Arr(items) => Arr(seq(|items|, i requires 0 <= i < |items| => Canonicalize(items[i])))
    case Obj(ms) =>
      assert forall k :: k in Sort(KeysOf(ms)) ==> k in Contents(CanonicalMembers(ms)) by {
        NamedValues(ms, CanonicalMembers(ms));
      }
      Obj(Build(Sort(KeysOf(ms)), Contents(CanonicalMembers(ms))))
    case _ => v
  }

  /** Printing and SHA-256 are injective in this model. */
  datatype Digest = Sha256(printed: Json)

  function HashPayload(v: Json): Digest { Sha256(Canonicalize(v)) }

  // ---- Sorting ----

  lemma LeqTotal(a: string, b: string)
    ensures Leq(a, b) || Leq(b, a)
    ensures Leq(a, b) && Leq(b, a) ==> a == b
  {
    if a != "" && b != "" && a[0] == b[0] {
      LeqTotal(a[1..], b[1..]);
      assert a == [a[0]] + a[1..] && b == [b[0]] + b[1..];
    }
  }

  lemma LeqTransitive(a: string, b: string, c: string)
    requires Leq(a, b) && Leq(b, c)
    ensures Leq(a, c)
  {
  }

  lemma InsertKeeps(k: string, ks: seq<string>)
    requires Sorted(ks)
    ensures multiset(Insert(k, ks)) == multiset(ks) + multiset{k}
    ensures Sorted(Insert(k, ks))
  {
    if ks == [] {
    } else if Leq(k, ks[0]) {
      forall j | 0 <= j < |ks| ensures Leq(k, ks[j]) {
        if j > 0 { LeqTransitive(k, ks[0], ks[j]); }
      }
    } else {
      LeqTotal(k, ks[0]);
      InsertKeeps(k, ks[1..]);
      assert ks == [ks[0]] + ks[1..];
      var rest := Insert(k, ks[1..]);
      forall j | 0 <= j < |rest| ensures Leq(ks[0], rest[j]) {
        assert rest[j] in multiset(rest);
        assert rest[j] == k || rest[j] in multiset(ks[1..]);
      }
    }
  }

  lemma {:induction false} SortPermutes(ks: seq<string>)
    ensures Sorted(Sort(ks)) && multiset(Sort(ks)) == multiset(ks)
  {
    if ks == [] {
    } else {
      SortPermutes(ks[1..]);
      InsertKeeps(ks[0], Sort(ks[1..]));
      assert ks == [ks[0]] + ks[1..];
    }
  }

  lemma {:induction false} SortKeeps(ks: seq<string>)
    ensures Sorted(Sort(ks)) && multiset(Sort(ks)) == multiset(ks)
    ensures forall k :: k in Sort(ks) <==> k in ks
  {
    SortPermutes(ks);
    SameMembers(Sort(ks), ks);
  }

  lemma SameMembers(a: seq<string>, b: seq<string>)
    requires multiset(a) == multiset(b)
    ensures forall k :: k in a <==> k in b
  {
    forall k ensures k in a <==> k in b {
      assert k in a <==> k in multiset(a);
      assert k in b <==> k in multiset(b);
    }
  }

  ghost predicate NoRepeats(ks: seq<string>) {
    forall i, j :: 0 <= i < j < |ks| ==> ks[i] != ks[j]
  }

  lemma NoRepeatsIffCounts(ks: seq<string>)
    ensures NoRepeats(ks) <==> forall k :: multiset(ks)[k] <= 1
  {
    if ks == [] {
    } else {
      var h, t := ks[0], ks[1..];
      NoRepeatsIffCounts(t);
      assert ks == [h] + t;
      assert multiset(ks) == multiset{h} + multiset(t);
      assert NoRepeats(ks) <==> NoRepeats(t) && h !in t by {
        assert forall i :: 0 < i < |ks| ==> ks[i] == t[i - 1];
      }
      assert h in t <==> multiset(t)[h] >= 1;
      assert forall k :: multiset(ks)[k] == multiset(t)[k] + if k == h then 1 else 0;
      assert multiset(ks)[h] == 1 + multiset(t)[h];
      if forall k :: multiset(ks)[k] <= 1 {
        forall k ensures multiset(t)[k] <= 1 { assert multiset(ks)[k] <= 1; }
      }
    }
  }

  lemma SortNoRepeats(ks: seq<string>)
    requires NoRepeats(ks)
    ensures NoRepeats(Sort(ks))
  {
    SortKeeps(ks);
    NoRepeatsIffCounts(ks);
    NoRepeatsIffCounts(Sort(ks));
  }

  lemma HeadIn(s: seq<string>)
    ensures s == [] || s[0] in s
  {
  }

  /** Names in sorted order depend only on the set of names. */
  lemma {:induction false} SortedUnique(a: seq<string>, b: seq<string>)
    requires Sorted(a) && Sorted(b) && NoRepeats(a) && NoRepeats(b)
    requires forall k :: k in a <==> k in b
    ensures a == b
  {
    HeadIn(b);
    if a == [] {
    } else {
      assert a[0] in b;
      assert b[0] in a;
      LeqTotal(a[0], b[0]);
      assert a[0] == b[0];
      assert forall k :: k in a[1..] <==> k in a && k != a[0];
      assert forall k :: k in b[1..] <==> k in b && k != b[0];
      SortedUnique(a[1..], b[1..]);
      assert a == [a[0]] + a[1..] && b == [b[0]] + b[1..];
    }
  }

  // ---- Building ----

  ghost predicate Has(ms: seq<Member>, k: string) {
    exists i :: 0 <= i < |ms| && ms[i].key == k
  }

  lemma ContentsKeys(ms: seq<Member>)
    ensures forall k :: k in Contents(ms) <==> Has(ms, k)
    ensures Distinct(ms) ==> forall i :: 0 <= i < |ms| ==>
              ms[i].key in Contents(ms) && Contents(ms)[ms[i].key] == ms[i].value
  {
    if ms == [] {
    } else {
      var t := ms[1..];
      ContentsKeys(t);
      forall k ensures Has(ms, k) <==> k == ms[0].key || Has(t, k) {
        if Has(t, k) {
          var i :| 0 <= i < |t| && t[i].key == k;
          assert ms[i + 1].key == k;
        }
        assert forall i :: 0 < i < |ms| ==> ms[i] == t[i - 1];
      }
      assert forall i :: 0 < i < |ms| ==> ms[i] == t[i - 1];
    }
  }

  lemma NamedValues(ms: seq<Member>, values: seq<Member>)
    requires |ms| == |values| && forall i :: 0 <= i < |ms| ==> values[i].key == ms[i].key
    ensures forall k :: k in Sort(KeysOf(ms)) <==> Has(ms, k)
    ensures forall k :: k in Contents(values) <==> Has(ms, k)
  {
    SortKeeps(KeysOf(ms));
    ContentsKeys(values);
    forall k ensures k in KeysOf(ms) <==> Has(ms, k) {
      if Has(ms, k) {
        var i :| 0 <= i < |ms| && ms[i].key == k;
        assert KeysOf(ms)[i] == k;
      }
    }
    assert forall k :: Has(values, k) <==> Has(ms, k);
  }

  lemma AppendContents(ms: seq<Member>, m: Member)
    requires m.key !in Contents(ms)
    ensures Contents(ms + [m]) == Contents(ms)[m.key := m.value]
  {
    if ms == [] {
      assert ms + [m] == [m];
    } else {
      AppendContents(ms[1..], m);
      assert (ms + [m])[1..] == ms[1..] + [m];
    }
  }

  lemma PutIndexContents(acc: seq<Member>, m: Member)
    requires m.key !in Contents(acc)
    ensures Contents(PutIndex(acc, m)) == Contents(acc)[m.key := m.value]
  {
    if PutIndex(acc, m) != [m] + acc {
      PutIndexContents(acc[1..], m);
    }
  }

  lemma PutIndexMembers(acc: seq<Member>, m: Member)
    ensures forall x :: x in PutIndex(acc, m) <==> x in acc || x == m
  {
  }

  lemma PutIndexDistinct(acc: seq<Member>, m: Member)
    requires Distinct(acc) && !Has(acc, m.key)
    ensures Distinct(PutIndex(acc, m))
  {
    if PutIndex(acc, m) != [m] + acc {
      PutIndexDistinct(acc[1..], m);
      PutIndexMembers(acc[1..], m);
      var rest := PutIndex(acc[1..], m);
      forall j | 0 <= j < |rest| ensures rest[j].key != acc[0].key {
        assert rest[j] in acc[1..] || rest[j] == m;
      }
    }
  }

  lemma AssignContents(acc: seq<Member>, m: Member)
    requires Distinct(acc) && m.key !in Contents(acc)
    ensures Distinct(Assign(acc, m))
    ensures Contents(Assign(acc, m)) == if m.key == PROTO then Contents(acc) else Contents(acc)[m.key := m.value]
  {
    ContentsKeys(acc);
    if m.key != PROTO {
      if IsIndex(m.key) { PutIndexContents(acc, m); PutIndexDistinct(acc, m); } else { AppendContents(acc, m); }
    }
  }

  function Kept(names: seq<string>, values: map<string, Json>): map<string, Json>
    requires forall k :: k in names ==> k in values
  {
    map k | k in names && k != PROTO :: values[k]
  }

  /** The built object holds exactly the named values, without PROTO. */
  lemma {:induction false} BuildContents(names: seq<string>, values: map<string, Json>)
    requires NoRepeats(names) && forall k :: k in names ==> k in values
    ensures Contents(Build(names, values)) == Kept(names, values)
    ensures Distinct(Build(names, values))
  {
    if names == [] {
    } else {
      var front, last := names[..|names| - 1], names[|names| - 1];
      BuildContents(front, values);
      assert names == front + [last];
      assert last !in front;
      AssignContents(Build(front, values), Member(last, values[last]));
    }
  }

  function DropProto(names: seq<string>): seq<string> {
    if names == [] then []
    else DropProto(names[..|names| - 1]) + if names[|names| - 1] == PROTO then [] else [names[|names| - 1]]
  }

  lemma DropProtoKeeps(names: seq<string>)
    ensures forall k :: k in DropProto(names) <==> k in names && k != PROTO
    ensures Sorted(names) ==> Sorted(DropProto(names))
    ensures NoRepeats(names) ==> NoRepeats(DropProto(names))
  {
    if names == [] {
    } else {
      var front := names[..|names| - 1];
      DropProtoKeeps(front);
      assert forall k :: k in names <==> k in front || k == names[|names| - 1];
      if Sorted(names) {
        forall j | 0 <= j < |DropProto(front)| ensures Leq(DropProto(front)[j], names[|names| - 1]) {
          assert DropProto(front)[j] in front;
        }
      }
      if NoRepeats(names) { assert names[|names| - 1] !in front; }
    }
  }

  lemma {:induction false} BuildWithoutProto(names: seq<string>, values: map<string, Json>)
    requires forall k :: k in names ==> k in values
    ensures forall k :: k in DropProto(names) ==> k in values
    ensures Build(names, values) == Build(DropProto(names), values)
  {
    DropProtoKeeps(names);
    if names == [] {
    } else {
      var front, last := names[..|names| - 1], names[|names| - 1];
      BuildWithoutProto(front, values);
      if last != PROTO {
        var kept := DropProto(names);
        assert kept == DropProto(front) + [last];
        assert kept[..|kept| - 1] == DropProto(front) && kept[|kept| - 1] == last;
      } else {
        assert DropProto(names) == DropProto(front);
      }
    }
  }

  lemma {:induction false} BuildCongruent(names: seq<string>, v: map<string, Json>, w: map<string, Json>)
    requires forall k :: k in names ==> k in v && k in w && v[k] == w[k]
    ensures Build(names, v) == Build(names, w)
  {
    if names == [] {
    } else {
      BuildCongruent(names[..|names| - 1], v, w);
    }
  }

  // ---- Canonical objects ----

  ghost function SortedNames(ms: seq<Member>): seq<string> {
    DropProto(Sort(KeysOf(ms)))
  }

  ghost function Values(ms: seq<Member>): map<string, Json> {
    Contents(CanonicalMembers(ms))
  }

  lemma SortedNamesOf(ms: seq<Member>)
    requires Distinct(ms)
    ensures Sorted(SortedNames(ms)) && NoRepeats(SortedNames(ms)) && NoRepeats(Sort(KeysOf(ms)))
    ensures forall k :: k in SortedNames(ms) <==> k in Names(ms)
  {
    SortKeeps(KeysOf(ms));
    SortNoRepeats(KeysOf(ms));
    DropProtoKeeps(Sort(KeysOf(ms)));
    NamedValues(ms, ms);
  }

  /** A canonical object is built from the sorted names without PROTO; it holds
      each such member's canonical value and nothing else. */
  lemma CanonicalObject(ms: seq<Member>)
    requires Distinct(ms)
    ensures forall k :: k in SortedNames(ms) ==> k in Values(ms)
    ensures Canonicalize(Obj(ms)) == Obj(Build(SortedNames(ms), Values(ms)))
    ensures Distinct(Canonicalize(Obj(ms)).members)
    ensures Contents(Canonicalize(Obj(ms)).members) == Kept(SortedNames(ms), Values(ms))
    ensures forall i :: 0 <= i < |ms| ==> ms[i].key in Values(ms) && Values(ms)[ms[i].key] == Canonicalize(ms[i].value)
  {
    var canon := CanonicalMembers(ms);
    NamedValues(ms, canon);
    ContentsKeys(canon);
    forall i | 0 <= i < |ms| ensures ms[i].key in Values(ms) && Values(ms)[ms[i].key] == Canonicalize(ms[i].value) {
      assert canon[i] == Member(ms[i].key, Canonicalize(ms[i].value));
    }
    SortedNamesOf(ms);
    DropProtoKeeps(Sort(KeysOf(ms)));
    BuildWithoutProto(Sort(KeysOf(ms)), Values(ms));
    BuildContents(SortedNames(ms), Values(ms));
  }

  lemma SameNamesSameObject(ms: seq<Member>, ns: seq<Member>)
    requires Distinct(ms) && Distinct(ns) && Names(ms) == Names(ns)
    requires forall i, j :: 0 <= i < |ms| && 0 <= j < |ns| && ms[i].key == ns[j].key && ms[i].key != PROTO
               ==> Canonicalize(ms[i].value) == Canonicalize(ns[j].value)
    ensures Canonicalize(Obj(ms)) == Canonicalize(Obj(ns))
  {
    CanonicalObject(ms);
    CanonicalObject(ns);
    SortedNamesOf(ms);
    SortedNamesOf(ns);
    SortedUnique(SortedNames(ms), SortedNames(ns));
    forall k | k in SortedNames(ms) ensures Values(ms)[k] == Values(ns)[k] {
      var i :| 0 <= i < |ms| && ms[i].key == k && k != PROTO;
      assert k in Names(ns);
      var j :| 0 <= j < |ns| && ns[j].key == k;
    }
    BuildCongruent(SortedNames(ms), Values(ms), Values(ns));
  }

  lemma SameObjectSameValues(ms: seq<Member>, ns: seq<Member>)
    requires Distinct(ms) && Distinct(ns) && Canonicalize(Obj(ms)) == Canonicalize(Obj(ns))
    ensures Names(ms) == Names(ns)
    ensures forall i, j :: 0 <= i < |ms| && 0 <= j < |ns| && ms[i].key == ns[j].key && ms[i].key != PROTO
              ==> Canonicalize(ms[i].value) == Canonicalize(ns[j].value)
  {
    CanonicalObject(ms);
    CanonicalObject(ns);
    SortedNamesOf(ms);
    SortedNamesOf(ns);
    var a, b := Kept(SortedNames(ms), Values(ms)), Kept(SortedNames(ns), Values(ns));
    assert a == b;
    assert forall k :: k in Names(ms) <==> k in a;
    assert forall k :: k in Names(ns) <==> k in b;
    forall i, j | 0 <= i < |ms| && 0 <= j < |ns| && ms[i].key == ns[j].key && ms[i].key != PROTO
      ensures Canonicalize(ms[i].value) == Canonicalize(ns[j].value)
    {
      assert ms[i].key in Names(ms) && ns[j].key in Names(ns);
      assert a[ms[i].key] == Values(ms)[ms[i].key] && b[ns[j].key] == Values(ns)[ns[j].key];
    }
  }

  /** Two payloads have equal canonical forms exactly when they have the same
      content. */
  lemma {:induction false} CanonicalIffSameContent(v: Json, w: Json)
    requires WellFormed(v) && WellFormed(w)
    ensures Canonicalize(v) == Canonicalize(w) <==> SameContent(v, w)
    decreases v
  {
    match (v, w)
    case (Arr(a), Arr(b)) =>
      var ca, cb := Canonicalize(v).items, Canonicalize(w).items;
      if |a| == |b| {
        forall i | 0 <= i < |a| ensures ca[i] == cb[i] <==> SameContent(a[i], b[i]) {
          CanonicalIffSameContent(a[i], b[i]);
        }
      }
    case (Obj(ms), Obj(ns)) =>
      forall i, j | 0 <= i < |ms| && 0 <= j < |ns| && ms[i].key == ns[j].key
        ensures Canonicalize(ms[i].value) == Canonicalize(ns[j].value) <==> SameContent(ms[i].value, ns[j].value)
      {
        CanonicalIffSameContent(ms[i].value, ns[j].value);
      }
      if SameContent(v, w) {
        SameNamesSameObject(ms, ns);
      } else if Canonicalize(v) == Canonicalize(w) {
        SameObjectSameValues(ms, ns);
      }
    case _ =>
  }

  lemma {:induction false} CanonicalSameContent(v: Json)
    requires WellFormed(v)
    ensures WellFormed(Canonicalize(v)) && SameContent(v, Canonicalize(v))
    decreases v
  {
    match v
    case Arr(items) =>
      forall i | 0 <= i < |items| { CanonicalSameContent(items[i]); }
    case Obj(ms) =>
      forall i | 0 <= i < |ms| { CanonicalSameContent(ms[i].value); }
      CanonicalObject(ms);
      SortedNamesOf(ms);
      var ns := Canonicalize(v).members;
      ContentsKeys(ns);
      var kept := Kept(SortedNames(ms), Values(ms));
      forall j | 0 <= j < |ns|
        ensures ns[j].key in Names(ms) && ns[j].value == Values(ms)[ns[j].key]
      {
        assert Has(ns, ns[j].key);
        assert ns[j].key in kept;
      }
      forall k | k in Names(ms) ensures k in Names(ns) {
        assert k in kept;
        assert Has(ns, k);
      }
      assert Names(ns) == Names(ms);
      forall j | 0 <= j < |ns| ensures WellFormed(ns[j].value) {
        var i :| 0 <= i < |ms| && ms[i].key != PROTO && ms[i].key == ns[j].key;
      }
    case _ =>
  }

  lemma CanonicalizeIdempotent(v: Json)
    requires WellFormed(v)
    ensures Canonicalize(Canonicalize(v)) == Canonicalize(v)
  {
    CanonicalSameContent(v);
    CanonicalIffSameContent(v, Canonicalize(v));
  }

  // ---- The submitted event ----

  datatype EventDto = EventDto(subject: string, body: string, requesterEmail: Option<string>,
                               source: Option<string>, metadata: Option<Json>)

  function OrNull(o: Option<string>): Json { if o.Some? then Str(o.value) else Null }

  /** The hashed part of a submission: everything but the idempotency key. */
  function Content(d: EventDto): Json {
    Obj([Member("subject", Str(d.subject)), Member("body", Str(d.body)),
         Member("requesterEmail", OrNull(d.requesterEmail)), Member("source", OrNull(d.source)),
         Member("metadata", if d.metadata.Some? then d.metadata.value else Null)])
  }

  lemma AlignedObjects(ms: seq<Member>, ns: seq<Member>)
    requires |ms| == |ns| == 5 && WellFormed(Obj(ms)) && WellFormed(Obj(ns))
    requires forall i :: 0 <= i < 5 ==> ms[i].key == ns[i].key && ms[i].key != PROTO
    ensures HashPayload(Obj(ms)) == HashPayload(Obj(ns)) <==>
            && SameContent(ms[0].value, ns[0].value) && SameContent(ms[1].value, ns[1].value)
            && SameContent(ms[2].value, ns[2].value) && SameContent(ms[3].value, ns[3].value)
            && SameContent(ms[4].value, ns[4].value)
  {
    CanonicalIffSameContent(Obj(ms), Obj(ns));
    assert Names(ms) == Names(ns) by {
      assert forall i :: 0 <= i < |ms| ==> ms[i].key == ns[i].key;
    }
    forall i, j | 0 <= i < |ms| && 0 <= j < |ns| && ms[i].key == ns[j].key ensures i == j {
      assert ms[j].key == ns[j].key;
    }
    assert (forall i :: 0 <= i < 5 ==> SameContent(ms[i].value, ns[i].value)) <==>
      SameContent(ms[0].value, ns[0].value) && SameContent(ms[1].value, ns[1].value)
      && SameContent(ms[2].value, ns[2].value)
      && SameContent(ms[3].value, ns[3].value) && SameContent(ms[4].value, ns[4].value);
  }

  /** Every field agrees, the metadata up to member order; absent metadata counts
      as null. */
  predicate SameSubmission(d: EventDto, e: EventDto) {
    && d.subject == e.subject && d.body == e.body
    && d.requesterEmail == e.requesterEmail && d.source == e.source
    && SameContent(if d.metadata.Some? then d.metadata.value else Null,
                   if e.metadata.Some? then e.metadata.value else Null)
  }

  /** Two submissions get one request hash exactly when they are the same. */
  lemma SameHashIff(d: EventDto, e: EventDto)
    requires d.metadata.Some? ==> WellFormed(d.metadata.value)
    requires e.metadata.Some? ==> WellFormed(e.metadata.value)
    ensures HashPayload(Content(d)) == HashPayload(Content(e)) <==> SameSubmission(d, e)
  {
    DistinctNames(d, e);
    ContentWellFormed(d);
    ContentWellFormed(e);
    AlignedObjects(Content(d).members, Content(e).members);
  }

  lemma DistinctNames(d: EventDto, e: EventDto)
    ensures Distinct(Content(d).members)
    ensures forall i :: 0 <= i < 5 ==> Content(d).members[i].key == Content(e).members[i].key != PROTO
  {
    assert |"subject"| == 7 && |"body"| == 4 && |"requesterEmail"| == 14;
    assert |"source"| == 6 && |"metadata"| == 8 && |PROTO| == 9;
  }

  lemma ContentWellFormed(d: EventDto)
    requires d.metadata.Some? ==> WellFormed(d.metadata.value)
    ensures WellFormed(Content(d))
  {
    DistinctNames(d, d);
  }

  /** The only content the hash misses: a member named PROTO. */
  lemma ProtoIsNotHashed(v: Json)
    ensures Obj([Member(PROTO, v)]) != Obj([])
    ensures HashPayload(Obj([Member(PROTO, v)])) == HashPayload(Obj([]))
  {
    CanonicalObject([Member(PROTO, v)]);
    CanonicalObject([]);
    assert Names([Member(PROTO, v)]) == {} == Names([]);
    SameNamesSameObject([Member(PROTO, v)], []);
  }
}
