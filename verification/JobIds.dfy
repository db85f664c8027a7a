/** The grammar of job ids and dedup keys: assertUsableAsJobId
    (src/events/events.service.ts), the four id templates of
    src/pipeline/pipeline.producer.ts and buildDedupKey of
    src/outbox/outbox.service.ts. */
module JobIds {
  import opened Common

  predicate IsDigit(c: char) { '0' <= c <= '9' }

  predicate IsAlphanumeric(c: char) { IsDigit(c) || 'A' <= c <= 'Z' || 'a' <= c <= 'z' }

  predicate IsKeyChar(c: char) { IsAlphanumeric(c) || c == '.' || c == '_' || c == '~' || c == '-' }

  predicate AllDigits(s: string) { s != "" && forall i :: 0 <= i < |s| ==> IsDigit(s[i]) }

  /** What assertUsableAsJobId lets through. */
  predicate UsableAsJobId(key: Key) {
    && 1 <= |key| <= 255 && IsAlphanumeric(key[0])
    && (forall i :: 0 <= i < |key| ==> IsKeyChar(key[i]))
    && !AllDigits(key)
  }

  predicate IsLetter(c: char) { 'A' <= c <= 'Z' || 'a' <= c <= 'z' }

  predicate IsPunctuation(c: char) { c == '.' || c == '_' || c == '~' || c == '-' }

  /** Letters, digits and the four marks, the first a letter or a digit. */
  predicate Wellformed(key: Key) {
    && key != "" && (IsLetter(key[0]) || '0' <= key[0] <= '9')
    && forall i :: 0 <= i < |key| ==> IsLetter(key[i]) || '0' <= key[i] <= '9' || IsPunctuation(key[i])
  }

  /** A well-formed key of at most 255 characters is accepted exactly when some
      character is no digit; nothing else is. */
  lemma UsableIff(key: Key)
    ensures UsableAsJobId(key) <==>
            Wellformed(key) && |key| <= 255 && exists i :: 0 <= i < |key| && (IsLetter(key[i]) || IsPunctuation(key[i]))
  {
    if Wellformed(key) {
      forall i | 0 <= i < |key| ensures IsDigit(key[i]) <==> !(IsLetter(key[i]) || IsPunctuation(key[i])) {}
    }
  }

  predicate IsHex(c: char) { '0' <= c <= '9' || 'a' <= c <= 'f' }

  /** A payload hash, 64 hexadecimal digits, can stand in for a missing key exactly
      when one of them is a letter. */
  lemma HashKeyUsableIff(text: string)
    requires |text| == 64 && forall i :: 0 <= i < 64 ==> IsHex(text[i])
    ensures UsableAsJobId(text) <==> exists i :: 0 <= i < 64 && 'a' <= text[i] <= 'f'
  {
    UsableIff(text);
    assert IsHex(text[0]);
    if UsableAsJobId(text) {
      var i :| 0 <= i < |text| && (IsLetter(text[i]) || IsPunctuation(text[i]));
      assert IsHex(text[i]);
    }
    if i :| 0 <= i < 64 && 'a' <= text[i] <= 'f' {
      assert IsLetter(text[i]);
      forall j | 0 <= j < |text| ensures IsLetter(text[j]) || '0' <= text[j] <= '9' { assert IsHex(text[j]); }
    }
  }

  /** A job by the mode that enqueued it. */
  datatype JobId =
    | Ingest(key: Key)
    | Replay(key: Key, deadLetter: string)
    | Upgrade(key: Key, attempt: nat)
    | Reconcile(key: Key)

  /** The key was accepted and the dead letter's uuid holds no colon. */
  predicate Issued(id: JobId) {
    UsableAsJobId(id.key) && (id.Replay? ==> ':' !in id.deadLetter)
  }

  function Decimal(n: nat): string {
    if n < 10 then ['0' + n as char] else Decimal(n / 10) + ['0' + (n % 10) as char]
  }

  function Render(id: JobId): string {
    match id
    case Ingest(key) => key
    case Replay(key, deadLetter) => key + ":" + ("replay" + ":" + deadLetter)
    case Upgrade(key, attempt) => key + ":" + ("upgrade" + ":" + Decimal(attempt))
    case Reconcile(key) => key + ":" + ("reconcile" + ":" + "0")
  }

  /** The parts of s between colons. */
  function Split(s: string): (parts: seq<string>)
    ensures |parts| >= 1
  {
    if s == "" then [""]
    else
      var rest := Split(s[1..]);
      if s[0] == ':' then [""] + rest else [[s[0]] + rest[0]] + rest[1..]
  }

  function DecimalValue(s: string): nat
    requires forall i :: 0 <= i < |s| ==> IsDigit(s[i])
  {
    if s == "" then 0
    else
      assert IsDigit(s[|s| - 1]);
      DecimalValue(s[..|s| - 1]) * 10 + (s[|s| - 1] as int - '0' as int)
  }

  /** Reads a job id back from its text. */
  function Parse(s: string): Option<JobId> {
    var parts := Split(s);
    if |parts| == 1 then Some(Ingest(s))
    else if |parts| != 3 then None
    else if parts[1] == "replay" then Some(Replay(parts[0], parts[2]))
    else if parts[1] == "upgrade" && AllDigits(parts[2]) then Some(Upgrade(parts[0], DecimalValue(parts[2])))
    else if parts[1] == "reconcile" then Some(Reconcile(parts[0]))
    else None
  }

  lemma {:induction false} SplitPlain(a: string)
    requires ':' !in a
    ensures Split(a) == [a]
  {
    if a == "" {
    } else {
      SplitPlain(a[1..]);
      assert a == [a[0]] + a[1..];
    }
  }

  lemma {:induction false} SplitAtColon(a: string, b: string)
    requires ':' !in a
    ensures Split(a + ":" + b) == [a] + Split(b)
  {
    var s := a + ":" + b;
    if a == "" {
      assert s[1..] == b;
    } else {
      SplitAtColon(a[1..], b);
      assert s[1..] == a[1..] + ":" + b;
      assert a == [a[0]] + a[1..];
    }
  }

  lemma {:induction false} DecimalReads(n: nat)
    ensures AllDigits(Decimal(n)) && DecimalValue(Decimal(n)) == n
  {
    var s := Decimal(n);
    if n >= 10 {
      DecimalReads(n / 10);
      assert s[..|s| - 1] == Decimal(n / 10);
    } else {
      assert s[..0] == "";
    }
  }

  /** Numbers are written in base ten, most significant digit first. */
  lemma DecimalIsBaseTen(n: nat)
    ensures n < 10 ==> Decimal(n) == ["0123456789"[n]]
    ensures n >= 10 ==> Decimal(n) == Decimal(n / 10) + Decimal(n % 10)
  {
  }

  lemma KeysHoldNoColon(key: Key)
    requires UsableAsJobId(key)
    ensures ':' !in key
  {
  }

  lemma RenderedParts(id: JobId)
    requires Issued(id)
    ensures Split(Render(id)) == match id
                                 case Ingest(key) => [key]
                                 case Replay(key, deadLetter) => [key, "replay", deadLetter]
                                 case Upgrade(key, attempt) => [key, "upgrade", Decimal(attempt)]
                                 case Reconcile(key) => [key, "reconcile", "0"]
  {
    KeysHoldNoColon(id.key);
    match id
    case Ingest(key) => SplitPlain(key);
    case Replay(key, deadLetter) =>
      SplitAtColon(key, "replay" + ":" + deadLetter);
      SplitAtColon("replay", deadLetter);
      SplitPlain(deadLetter);
    case Upgrade(key, attempt) =>
      DecimalReads(attempt);
      SplitAtColon(key, "upgrade" + ":" + Decimal(attempt));
      SplitAtColon("upgrade", Decimal(attempt));
      SplitPlain(Decimal(attempt));
    case Reconcile(key) =>
      SplitAtColon(key, "reconcile" + ":" + "0");
      SplitAtColon("reconcile", "0");
      SplitPlain("0");
  }

  /** Every issued id can be read back from its text. */
  lemma ParseRender(id: JobId)
    requires Issued(id)
    ensures Parse(Render(id)) == Some(id)
  {
    RenderedParts(id);
    if id.Upgrade? { DecimalReads(id.attempt); }
  }

  /** One text names one job: the four forms are disjoint and each is injective. */
  lemma JobIdsInjective(a: JobId, b: JobId)
    requires Issued(a) && Issued(b)
    ensures Render(a) == Render(b) <==> a == b
  {
    ParseRender(a);
    ParseRender(b);
  }

  /** The queue's own rule for a custom id: not an integer, and a colon only
      where the id splits into exactly three parts. */
  predicate AcceptedByQueue(s: string) {
    && !AllDigits(s) && !(s != "" && s[0] == '-' && AllDigits(s[1..]))
    && (':' in s ==> |Split(s)| == 3)
  }

  lemma EveryIssuedIdIsAccepted(id: JobId)
    requires Issued(id)
    ensures AcceptedByQueue(Render(id))
  {
    RenderedParts(id);
    KeysHoldNoColon(id.key);
    assert Render(id)[0] == id.key[0];
    if !id.Ingest? { assert Render(id)[|id.key|] == ':'; }
  }

  // ---- Dedup keys ----

  function BuildDedupKey(aggregateType: string, aggregateId: string, eventType: string, version: string): string {
    aggregateType + ":" + (aggregateId + ":" + (eventType + ":" + version))
  }

  lemma DedupKeyParts(aggregateType: string, aggregateId: string, eventType: string, version: string)
    requires ':' !in aggregateType && ':' !in aggregateId && ':' !in eventType && ':' !in version
    ensures Split(BuildDedupKey(aggregateType, aggregateId, eventType, version)) ==
              [aggregateType, aggregateId, eventType, version]
  {
    SplitAtColon(aggregateType, aggregateId + ":" + (eventType + ":" + version));
    SplitAtColon(aggregateId, eventType + ":" + version);
    SplitAtColon(eventType, version);
    SplitPlain(version);
  }

  /** Distinct effects never share a dedup key, as long as no component holds a
      colon. */
  lemma DedupKeysInjective(t: string, i: string, e: string, v: string, t': string, i': string, e': string, v': string)
    requires ':' !in t && ':' !in i && ':' !in e && ':' !in v
    requires ':' !in t' && ':' !in i' && ':' !in e' && ':' !in v'
    ensures BuildDedupKey(t, i, e, v) == BuildDedupKey(t', i', e', v') <==> t == t' && i == i' && e == e' && v == v'
  {
    DedupKeyParts(t, i, e, v);
    DedupKeyParts(t', i', e', v');
    var parts, parts' := [t, i, e, v], [t', i', e', v'];
    assert parts == parts' ==> parts[0] == t' && parts[1] == i' && parts[2] == e' && parts[3] == v';
  }

  // ---- How much the components may hold ----

  /** The colons of four components are all in the named ones. */
  predicate Confined(c: seq<string>, colons: set<nat>) {
    |c| == 4 && forall i :: 0 <= i < 4 && i !in colons ==> ':' !in c[i]
  }

  function KeyOf(c: seq<string>): string
    requires |c| == 4
  {
    BuildDedupKey(c[0], c[1], c[2], c[3])
  }

  lemma FirstPart(c: char, rest: seq<string>, more: seq<string>)
    requires |rest| >= 1
    ensures [""] + (rest + more) == ([""] + rest) + more
    ensures [[c] + (rest + more)[0]] + (rest + more)[1..] == ([[c] + rest[0]] + rest[1..]) + more
  {
    assert (rest + more)[1..] == rest[1..] + more;
  }

  lemma {:induction false} SplitAppend(a: string, b: string)
    ensures Split(a + ":" + b) == Split(a) + Split(b)
  {
    var s := a + ":" + b;
    if a == "" {
      assert s[1..] == b;
    } else {
      SplitAppend(a[1..], b);
      assert s[1..] == a[1..] + ":" + b && s[0] == a[0];
      FirstPart(a[0], Split(a[1..]), Split(b));
    }
  }

  function Joined(parts: seq<string>): string {
    if |parts| <= 1 then (if parts == [] then "" else parts[0]) else parts[0] + ":" + Joined(parts[1..])
  }

  lemma {:induction false} JoinSplit(s: string)
    ensures Joined(Split(s)) == s
  {
    if s == "" {
    } else {
      JoinSplit(s[1..]);
      var rest := Split(s[1..]);
      assert s == [s[0]] + s[1..];
      if s[0] == ':' {
        assert ([""] + rest)[1..] == rest;
      } else {
        assert ([[s[0]] + rest[0]] + rest[1..])[1..] == rest[1..];
      }
    }
  }

  lemma KeyParts(c: seq<string>)
    requires |c| == 4
    ensures Split(KeyOf(c)) == Split(c[0]) + (Split(c[1]) + (Split(c[2]) + Split(c[3])))
  {
    var last := c[2] + ":" + c[3];
    var rest := c[1] + ":" + last;
    SplitAppend(c[2], c[3]);
    SplitAppend(c[1], last);
    SplitAppend(c[0], rest);
    assert KeyOf(c) == c[0] + ":" + rest by { Colons(c[0], c[1], c[2], c[3]); }
  }

  lemma Colons(a: string, b: string, c: string, d: string)
    ensures BuildDedupKey(a, b, c, d) == a + ":" + (b + ":" + (c + ":" + d))
  {
    assert c + (":" + d) == c + ":" + d;
    assert b + (":" + (c + ":" + d)) == b + ":" + (c + ":" + d);
  }

  /** The parts before and after the one component that may hold colons stand at
      fixed places from either end. */
  lemma PartsAround(c: seq<string>, j: nat)
    requires j < 4 && Confined(c, {j})
    ensures Split(KeyOf(c)) == c[..j] + Split(c[j]) + c[j + 1..]
  {
    KeyParts(c);
    forall i | 0 <= i < 4 && i != j ensures Split(c[i]) == [c[i]] { SplitPlain(c[i]); }
    Regroup(c, Split(c[j]));
  }

  lemma Regroup(c: seq<string>, m: seq<string>)
    requires |c| == 4
    ensures m + ([c[1]] + ([c[2]] + [c[3]])) == c[..0] + m + c[1..]
    ensures [c[0]] + (m + ([c[2]] + [c[3]])) == c[..1] + m + c[2..]
    ensures [c[0]] + ([c[1]] + (m + [c[3]])) == c[..2] + m + c[3..]
    ensures [c[0]] + ([c[1]] + ([c[2]] + m)) == c[..3] + m + c[4..]
  {
    assert c[1..] == [c[1]] + ([c[2]] + [c[3]]) && c[2..] == [c[2]] + [c[3]] && c[3..] == [c[3]];
    assert c[..2] == [c[0]] + [c[1]] && c[..3] == [c[0]] + ([c[1]] + [c[2]]);
  }

  lemma SameMiddle(a: seq<string>, p: seq<string>, x: seq<string>, b: seq<string>, q: seq<string>, y: seq<string>)
    requires |a| == |b| && |x| == |y| && a + p + x == b + q + y
    ensures a == b && p == q && x == y
  {
    var s, t := a + p + x, b + q + y;
    assert |p| == |q|;
    assert a == s[..|a|] && b == t[..|a|];
    assert p == s[|a|..|a| + |p|] && q == t[|a|..|a| + |p|];
    assert x == s[|a| + |p|..] && y == t[|a| + |p|..];
  }

  lemma OneComponentMayHoldColons(a: seq<string>, b: seq<string>, j: nat)
    requires j < 4 && Confined(a, {j}) && Confined(b, {j}) && KeyOf(a) == KeyOf(b)
    ensures a == b
  {
    PartsAround(a, j);
    PartsAround(b, j);
    SameMiddle(a[..j], Split(a[j]), a[j + 1..], b[..j], Split(b[j]), b[j + 1..]);
    JoinSplit(a[j]);
    JoinSplit(b[j]);
    assert a == a[..j] + [a[j]] + a[j + 1..] && b == b[..j] + [b[j]] + b[j + 1..];
  }

  function Ones(i: nat): seq<string> {
    seq(4, k => if k == i then "x:x" else "x")
  }

  /** With a colon in either of two components two different effects collide. */
  lemma ColonsCollide(i: nat, j: nat)
    requires i < 4 && j < 4 && i != j
    ensures Confined(Ones(i), {i, j}) && Confined(Ones(j), {i, j})
    ensures KeyOf(Ones(i)) == KeyOf(Ones(j)) && Ones(i) != Ones(j)
  {
    assert Ones(i)[i] != Ones(j)[i];
    assert forall k :: 0 <= k < 4 ==> KeyOf(Ones(k)) == "x:x:x:x:x";
  }

  /** Distinct effects never share a dedup key exactly when colons are confined to
      one component at most. */
  lemma DedupKeysInjectiveIff(colons: set<nat>)
    requires forall i :: i in colons ==> i < 4
    ensures (forall a, b :: Confined(a, colons) && Confined(b, colons) && KeyOf(a) == KeyOf(b) ==> a == b)
            <==> (forall i, j :: i in colons && j in colons ==> i == j)
  {
    if i, j :| i in colons && j in colons && i != j {
      ColonsCollide(i, j);
      assert Confined(Ones(i), colons) && Confined(Ones(j), colons);
    } else {
      var one: nat := 0;
      if i :| i in colons { one := i; }
      forall a, b | Confined(a, colons) && Confined(b, colons) && KeyOf(a) == KeyOf(b) ensures a == b {
        OneComponentMayHoldColons(a, b, one);
      }
    }
  }
}
