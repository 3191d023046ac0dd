/**
 The gate before a compiled object is published. Certificates are ensured one after the other; a modifier
 appends each ensured one to a list as a side effect; the object is written only if everything in that list
 is ready, and it then carries one revision annotation per certificate.
 */
module PublishGate {
  import opened Wrappers
  import opened Ordering

  datatype Condition = Condition(kind: string, status: string)
  datatype Certificate = Certificate(name: string, revision: Option<nat>, conditions: seq<Condition>)

  /** The object handed to a reconciler when the certificate does not exist yet. */
  const EMPTY: Certificate := Certificate("", None, [])

  /** Only the first Ready condition counts. */
  predicate ReadyIn(conditions: seq<Condition>) {
    conditions != [] &&
    if conditions[0].kind == "Ready" then conditions[0].status == "True" else ReadyIn(conditions[1..])
  }

  predicate CertificateReady(cert: Certificate) {
    ReadyIn(cert.conditions)
  }

  /** A condition Ready=True before any other Ready condition: what it takes to be ready. */
  ghost predicate FirstReadyIsTrue(conditions: seq<Condition>) {
    exists i | 0 <= i < |conditions| ::
      conditions[i] == Condition("Ready", "True") && forall j | 0 <= j < i :: conditions[j].kind != "Ready"
  }

  lemma {:induction false} ReadyInFirst(conditions: seq<Condition>)
    ensures ReadyIn(conditions) <==> FirstReadyIsTrue(conditions)
    decreases |conditions|
  {
    if conditions != [] {
      var rest := conditions[1..];
      assert forall j | 0 <= j < |rest| :: rest[j] == conditions[j + 1];
      if conditions[0].kind != "Ready" {
        ReadyInFirst(rest);
        ReadyLater(conditions);
      }
    }
  }

  lemma ReadyLater(conditions: seq<Condition>)
    requires conditions != [] && conditions[0].kind != "Ready"
    ensures FirstReadyIsTrue(conditions) <==> FirstReadyIsTrue(conditions[1..])
  {
    var rest := conditions[1..];
    if i :| 0 <= i < |conditions| && conditions[i] == Condition("Ready", "True") && forall j | 0 <= j < i :: conditions[j].kind != "Ready" {
      assert rest[i - 1] == conditions[i] && forall j | 0 <= j < i - 1 :: rest[j] == conditions[j + 1];
    }
    if i :| 0 <= i < |rest| && rest[i] == Condition("Ready", "True") && forall j | 0 <= j < i :: rest[j].kind != "Ready" {
      assert conditions[i + 1] == rest[i];
      assert forall j | 0 < j < i + 1 :: conditions[j] == rest[j - 1];
    }
  }

  /** A certificate is ready exactly if its first Ready condition has the status True. */
  lemma ReadyIffFirstReadyIsTrue(cert: Certificate)
    ensures CertificateReady(cert) <==>
      exists i | 0 <= i < |cert.conditions| ::
        && cert.conditions[i] == Condition("Ready", "True")
        && forall j | 0 <= j < i :: cert.conditions[j].kind != "Ready"
  {
    ReadyInFirst(cert.conditions);
  }

  /** How ensuring one certificate ends: a failing read or render captures nothing, a failing write already has. */
  datatype Attempt = Applied | ReadFailed | RenderFailed | WriteFailed

  /** Certificates are stored under their names. */
  datatype Cluster = Cluster(certs: map<string, Certificate>, attempt: string -> Attempt) {
    ghost predicate Valid() {
      forall n | n in certs :: certs[n].name == n
    }
    function Existing(n: string): Certificate {
      if n in certs then certs[n] else EMPTY
    }
    ghost predicate Ready(n: string) {
      n in certs && CertificateReady(certs[n])
    }
  }

  /** The certificates whose reconcilers ran: a prefix of the list, cut at the first error. */
  function CapturedNames(attempt: string -> Attempt, names: seq<string>): seq<string> {
    if names == [] then []
    else
      match attempt(names[0])
      case Applied => [names[0]] + CapturedNames(attempt, names[1..])
      case WriteFailed => [names[0]]
      case _ => []
  }

  predicate PhaseFails(attempt: string -> Attempt, names: seq<string>) {
    exists n | n in names :: !attempt(n).Applied?
  }

  lemma {:induction false} CapturesArePrefix(attempt: string -> Attempt, names: seq<string>)
    ensures CapturedNames(attempt, names) <= names
    ensures !PhaseFails(attempt, names) ==> CapturedNames(attempt, names) == names
    decreases |names|
  {
    if names != [] {
      CapturesArePrefix(attempt, names[1..]);
      assert names == [names[0]] + names[1..];
    }
  }

  /** A name is captured exactly if all before it were applied and it was applied or failed only in the write. */
  lemma {:induction false} CapturedIff(attempt: string -> Attempt, names: seq<string>, i: nat)
    requires i < |names|
    ensures i < |CapturedNames(attempt, names)| <==>
      && (forall j | 0 <= j < i :: attempt(names[j]) == Applied)
      && (attempt(names[i]) == Applied || attempt(names[i]) == WriteFailed)
    decreases |names|
  {
    if i > 0 {
      CapturedIff(attempt, names[1..], i - 1);
      assert forall j | 0 < j < i :: names[j] == names[1..][j - 1];
      assert forall j | 0 <= j < i - 1 :: names[1..][j] == names[j + 1];
    }
  }

  function Objects(c: Cluster, names: seq<string>): (r: seq<Certificate>)
    ensures |r| == |names|
  {
    seq(|names|, i requires 0 <= i < |names| => c.Existing(names[i]))
  }

  lemma ObjectsConcat(c: Cluster, a: seq<string>, b: seq<string>)
    ensures Objects(c, a + b) == Objects(c, a) + Objects(c, b)
  {
  }

  /** The slice a Capture modifier appends to. */
  class CaptureList {
    var certs: seq<Certificate>

    constructor ()
      ensures certs == []
    {
      certs := [];
    }
  }

  /** Stops at the first error; what was captured until then stays captured. */
  method ReconcileCertificates(c: Cluster, names: seq<string>, out: CaptureList) returns (failed: bool)
    modifies out
    ensures out.certs == old(out.certs) + Objects(c, CapturedNames(c.attempt, names))
    ensures failed == PhaseFails(c.attempt, names)
  {
    for i := 0 to |names|
      invariant out.certs == old(out.certs) + Objects(c, names[..i])
      invariant forall j | 0 <= j < i :: c.attempt(names[j]).Applied?
    {
      var outcome := c.attempt(names[i]);
      AppliedPrefix(c.attempt, names, i);
      if outcome.ReadFailed? || outcome.RenderFailed? {
        return true;
      }
      out.certs := out.certs + [c.Existing(names[i])];
      assert Objects(c, names[..i] + [names[i]]) == Objects(c, names[..i]) + [c.Existing(names[i])];
      assert names[..i + 1] == names[..i] + [names[i]];
      if outcome.WriteFailed? {
        return true;
      }
    }
    assert names[..|names|] == names;
    CapturesArePrefix(c.attempt, names);
    failed := false;
  }

  lemma {:induction false} AppliedPrefix(attempt: string -> Attempt, names: seq<string>, i: nat)
    requires i < |names| && forall j | 0 <= j < i :: attempt(names[j]).Applied?
    ensures !attempt(names[i]).Applied? ==> PhaseFails(attempt, names)
    ensures attempt(names[i]).WriteFailed? ==> CapturedNames(attempt, names) == names[..i] + [names[i]]
    ensures attempt(names[i]).ReadFailed? || attempt(names[i]).RenderFailed? ==> CapturedNames(attempt, names) == names[..i]
    decreases |names|
  {
    if !attempt(names[i]).Applied? {
      assert names[i] in names;
      if i > 0 {
        AppliedPrefix(attempt, names[1..], i - 1);
        assert names[..i] == [names[0]] + names[1..][..i - 1];
      } else {
        assert names[..0] + [names[0]] == [names[0]];
      }
    }
  }

  // ----- strconv.Itoa -----

  function Digit(d: nat): char
    requires d < 10
  {
    '0' + d as char
  }

  function Itoa(n: nat): string {
    if n < 10 then [Digit(n)] else Itoa(n / 10) + [Digit(n % 10)]
  }

  /** Different revisions have different texts, so a renewal always changes the annotation. */
  lemma {:induction false} ItoaInjective(m: nat, n: nat)
    requires Itoa(m) == Itoa(n)
    ensures m == n
    decreases m
  {
    var a, b := Itoa(m), Itoa(n);
    assert a[|a| - 1] == Digit(m % 10) && b[|b| - 1] == Digit(n % 10);
    if m >= 10 && n >= 10 {
      assert Itoa(m / 10) == a[..|a| - 1] && Itoa(n / 10) == b[..|b| - 1];
      ItoaInjective(m / 10, n / 10);
    } else {
      ItoaLength(m);
      ItoaLength(n);
    }
  }

  lemma {:induction false} ItoaLength(n: nat)
    ensures |Itoa(n)| >= 1 && (|Itoa(n)| == 1 <==> n < 10)
    decreases n
  {
  }

  /** The number a decimal text stands for. */
  function Value(text: string): nat {
    if text == "" then 0
    else 10 * Value(text[..|text| - 1]) + if '0' <= text[|text| - 1] <= '9' then (text[|text| - 1] - '0') as nat else 0
  }

  /** The text is made of digits, has no leading zero and stands for the number. */
  lemma {:induction false} ItoaIsDecimal(n: nat)
    ensures Value(Itoa(n)) == n
    ensures forall i | 0 <= i < |Itoa(n)| :: '0' <= Itoa(n)[i] <= '9'
    ensures |Itoa(n)| > 0 && (Itoa(n)[0] == '0' <==> n == 0)
    decreases n
  {
    if n >= 10 {
      ItoaIsDecimal(n / 10);
      assert Itoa(n)[..|Itoa(n)| - 1] == Itoa(n / 10);
    } else {
      assert Value(Itoa(n)[..0]) == 0;
    }
  }

  function RevisionText(cert: Certificate): string {
    Itoa(cert.revision.GetOr(0))
  }

  /** The revisions by name, later entries winning; nothing at all if some certificate is not ready. */
  function RevisionMap(certs: seq<Certificate>): map<string, string> {
    if certs == [] then map[]
    else RevisionMap(certs[..|certs| - 1])[certs[|certs| - 1].name := RevisionText(certs[|certs| - 1])]
  }

  method CertificateRevisions(certs: seq<Certificate>) returns (revisions: map<string, string>, ready: bool)
    ensures ready <==> forall cert | cert in certs :: CertificateReady(cert)
    ensures ready <==> forall cert | cert in certs :: FirstReadyIsTrue(cert.conditions)
    ensures revisions == if ready then RevisionMap(certs) else map[]
  {
    forall cert: Certificate
      ensures CertificateReady(cert) <==> FirstReadyIsTrue(cert.conditions)
    {
      ReadyInFirst(cert.conditions);
    }
    revisions := map[];
    for i := 0 to |certs|
      invariant revisions == RevisionMap(certs[..i])
      invariant forall j | 0 <= j < i :: CertificateReady(certs[j])
    {
      assert certs[..i + 1][..i] == certs[..i];
      if !CertificateReady(certs[i]) {
        assert certs[i] in certs;
        return map[], false;
      }
      revisions := revisions[certs[i].name := RevisionText(certs[i])];
    }
    assert certs[..|certs|] == certs;
    ready := true;
  }

  // ----- Annotation keys -----

  function Wrap(prefix: string, k: string, suffix: string): string {
    prefix + k + suffix
  }

  function WrapAll(prefix: string, keys: set<string>, suffix: string): set<string> {
    set k | k in keys :: Wrap(prefix, k, suffix)
  }

  ghost predicate Wrapped(m: map<string, string>, prefix: string, suffix: string, r: map<string, string>) {
    && r.Keys == WrapAll(prefix, m.Keys, suffix)
    && forall k | k in m :: r[Wrap(prefix, k, suffix)] == m[k]
  }

  lemma WrapInjective(prefix: string, suffix: string, a: string, b: string)
    requires Wrap(prefix, a, suffix) == Wrap(prefix, b, suffix)
    ensures a == b
  {
    var w := Wrap(prefix, a, suffix);
    assert |a| == |b|;
    assert a == w[|prefix|..|prefix| + |a|] == b;
  }

  /** Iterates over the map in an arbitrary order; since wrapping is injective the order does not matter. */
  method MutateKeys(m: map<string, string>, prefix: string, suffix: string) returns (r: map<string, string>)
    ensures Wrapped(m, prefix, suffix, r)
    ensures |r| == |m|
  {
    r := map[];
    var todo := m.Keys;
    while todo != {}
      invariant todo <= m.Keys
      invariant r.Keys == WrapAll(prefix, m.Keys - todo, suffix)
      invariant forall k | k in m.Keys - todo :: r[Wrap(prefix, k, suffix)] == m[k]
      invariant |r| + |todo| == |m|
    {
      var k :| k in todo;
      forall j | j in m && j != k
        ensures Wrap(prefix, j, suffix) != Wrap(prefix, k, suffix)
      {
        if Wrap(prefix, j, suffix) == Wrap(prefix, k, suffix) {
          WrapInjective(prefix, suffix, j, k);
        }
      }
      r := r[Wrap(prefix, k, suffix) := m[k]];
      todo := todo - {k};
    }
    assert m.Keys - todo == m.Keys;
  }

  const GROUP_PREFIX: string := "operator.kcp.io/"

  function AnnotationKeyWith(group: string, prefix: string, name: string, suffix: string): string {
    Wrap(group, Wrap(prefix, name, suffix), "")
  }

  function AnnotationKeysWith(group: string, prefix: string, names: set<string>, suffix: string): set<string> {
    set n | n in names :: AnnotationKeyWith(group, prefix, n, suffix)
  }

  ghost predicate AnnotatedWith(group: string, prefix: string, suffix: string,
                                user: map<string, string>, revisions: map<string, string>, annotations: map<string, string>) {
    var keys := AnnotationKeysWith(group, prefix, revisions.Keys, suffix);
    && annotations.Keys == user.Keys + keys
    && (forall n | n in revisions :: annotations[AnnotationKeyWith(group, prefix, n, suffix)] == revisions[n])
    && (forall k | k in user.Keys - keys :: annotations[k] == user[k])
  }

  /** The annotations of a published object: the source object's own, and exactly these revisions above them. */
  ghost predicate Annotated(user: map<string, string>, revisions: map<string, string>, annotations: map<string, string>) {
    AnnotatedWith(GROUP_PREFIX, "cert-", "-revision", user, revisions, annotations)
  }

  lemma WrappedTwice(group: string, prefix: string, suffix: string, revisions: map<string, string>,
                     inner: map<string, string>, outer: map<string, string>)
    requires Wrapped(revisions, prefix, suffix, inner) && Wrapped(inner, group, "", outer)
    ensures outer.Keys == AnnotationKeysWith(group, prefix, revisions.Keys, suffix)
    ensures forall n | n in revisions :: outer[AnnotationKeyWith(group, prefix, n, suffix)] == revisions[n]
  {
  }

  lemma UserBelow(group: string, prefix: string, suffix: string,
                  user: map<string, string>, revisions: map<string, string>, outer: map<string, string>)
    requires outer.Keys == AnnotationKeysWith(group, prefix, revisions.Keys, suffix)
    requires forall n | n in revisions :: outer[AnnotationKeyWith(group, prefix, n, suffix)] == revisions[n]
    ensures AnnotatedWith(group, prefix, suffix, user, revisions, user + outer)
  {
  }

  /** Wraps twice: the controller adds the inner pair, the object's reconciler the group. */
  method Annotate(group: string, prefix: string, suffix: string, user: map<string, string>, revisions: map<string, string>)
    returns (annotations: map<string, string>)
    ensures AnnotatedWith(group, prefix, suffix, user, revisions, annotations)
  {
    var inner := MutateKeys(revisions, prefix, suffix);
    var outer := MutateKeys(inner, group, "");
    annotations := user + outer;
    WrappedTwice(group, prefix, suffix, revisions, inner, outer);
    UserBelow(group, prefix, suffix, user, revisions, outer);
  }

  // ----- The controllers -----

  /** Whether a failing certificate phase ends the reconcile (VirtualWorkspace, CacheServer) or not (Shard, RootShard, FrontProxy). */
  datatype Policy = StopOnError | Continue

  /**
   The certificate phases of one controller. A phase that is skipped returned an error before it reached its first
   certificate, as the proxy's does when a CA Secret cannot be read. Only the RootShard has two phases.
   */
  datatype Phase = Phase(names: seq<string>, skipped: bool)

  function PhaseCaptures(attempt: string -> Attempt, p: Phase): seq<string> {
    if p.skipped then [] else CapturedNames(attempt, p.names)
  }

  predicate PhaseErrs(attempt: string -> Attempt, p: Phase) {
    p.skipped || PhaseFails(attempt, p.names)
  }

  function AllCaptures(attempt: string -> Attempt, phases: seq<Phase>): seq<string> {
    if phases == [] then [] else AllCaptures(attempt, phases[..|phases| - 1]) + PhaseCaptures(attempt, phases[|phases| - 1])
  }

  function AllNames(phases: seq<Phase>): seq<string> {
    if phases == [] then [] else AllNames(phases[..|phases| - 1]) + phases[|phases| - 1].names
  }

  predicate AnyErrs(attempt: string -> Attempt, phases: seq<Phase>) {
    exists p | p in phases :: PhaseErrs(attempt, p)
  }

  ghost predicate AllReady(c: Cluster, names: seq<string>) {
    forall n | n in names :: c.Ready(n)
  }

  ghost predicate GateOpens(c: Cluster, phases: seq<Phase>, policy: Policy) {
    (policy.Continue? || !AnyErrs(c.attempt, phases)) && AllReady(c, AllCaptures(c.attempt, phases))
  }

  lemma OnePhaseMore(c: Cluster, phases: seq<Phase>, i: nat)
    requires i < |phases|
    ensures Objects(c, AllCaptures(c.attempt, phases[..i + 1])) ==
      Objects(c, AllCaptures(c.attempt, phases[..i])) + Objects(c, PhaseCaptures(c.attempt, phases[i]))
    ensures AnyErrs(c.attempt, phases[..i + 1]) == (AnyErrs(c.attempt, phases[..i]) || PhaseErrs(c.attempt, phases[i]))
  {
    assert phases[..i + 1] == phases[..i] + [phases[i]];
    ObjectsConcat(c, AllCaptures(c.attempt, phases[..i]), PhaseCaptures(c.attempt, phases[i]));
  }

  /** Runs the certificate phases, all of them even if one fails. */
  method CollectCertificates(c: Cluster, phases: seq<Phase>) returns (certs: seq<Certificate>, failed: bool)
    ensures certs == Objects(c, AllCaptures(c.attempt, phases))
    ensures failed == AnyErrs(c.attempt, phases)
  {
    var out := new CaptureList();
    failed := false;
    for i := 0 to |phases|
      invariant out.certs == Objects(c, AllCaptures(c.attempt, phases[..i]))
      invariant failed == AnyErrs(c.attempt, phases[..i])
    {
      OnePhaseMore(c, phases, i);
      if phases[i].skipped {
        failed := true;
      } else {
        var err := ReconcileCertificates(c, phases[i].names, out);
        failed := failed || err;
      }
    }
    assert phases[..|phases|] == phases;
    certs := out.certs;
  }

  /**
   Writes the compiled object if the gate opens; None means it was left as it was. `blocked` stands for what else keeps
   a controller from publishing: an unknown VirtualWorkspace, a failed shard list or, with StopOnError, a failed Secret.
   */
  method Publish(c: Cluster, phases: seq<Phase>, policy: Policy, blocked: bool, user: map<string, string>)
    returns (published: Option<map<string, string>>)
    ensures published.Some? <==> !blocked && GateOpens(c, phases, policy)
    ensures published.Some? ==> Annotated(user, RevisionMap(Objects(c, AllCaptures(c.attempt, phases))), published.value)
    ensures c.Valid() && NothingFails(c.attempt, phases) ==>
      && (published.Some? <==> !blocked && EveryoneIsReady(c, phases))
      && (published.Some? ==> forall n | Listed(phases, n) :: CarriesRevision(c, published.value, n))
  {
    if c.Valid() && NothingFails(c.attempt, phases) {
      OpenGateMeansAllReady(c, phases, policy);
    }
    var certs, failed := CollectCertificates(c, phases);
    if failed && policy.StopOnError? {
      return None;
    }
    var revisions, ready := CertificateRevisions(certs);
    ObjectsReady(c, AllCaptures(c.attempt, phases));
    if blocked || !ready {
      return None;
    }
    var annotations := Annotate(GROUP_PREFIX, "cert-", "-revision", user, revisions);
    published := Some(annotations);
    if c.Valid() && NothingFails(c.attempt, phases) {
      PublishedRevisions(c, phases, policy, user, annotations);
    }
  }

  lemma ObjectsReady(c: Cluster, names: seq<string>)
    ensures (forall cert | cert in Objects(c, names) :: CertificateReady(cert)) <==> AllReady(c, names)
  {
    var objects := Objects(c, names);
    if forall cert | cert in objects :: CertificateReady(cert) {
      forall n | n in names
        ensures c.Ready(n)
      {
        var i :| 0 <= i < |names| && names[i] == n;
        assert objects[i] in objects;
      }
    }
    if forall n | n in names :: c.Ready(n) {
      forall cert | cert in objects
        ensures CertificateReady(cert)
      {
        var i :| 0 <= i < |objects| && objects[i] == cert;
        assert names[i] in names;
      }
    }
  }

  // ----- What an open gate tells -----

  lemma {:induction false} AllCaptured(attempt: string -> Attempt, phases: seq<Phase>)
    requires !AnyErrs(attempt, phases)
    ensures AllCaptures(attempt, phases) == AllNames(phases)
    decreases |phases|
  {
    if phases != [] {
      var last := phases[|phases| - 1];
      assert last in phases && !PhaseErrs(attempt, last);
      CapturesArePrefix(attempt, last.names);
      AllCaptured(attempt, phases[..|phases| - 1]);
    }
  }

  lemma {:induction false} CapturesAreListed(attempt: string -> Attempt, phases: seq<Phase>, n: string)
    requires n in AllCaptures(attempt, phases)
    ensures n in AllNames(phases)
    decreases |phases|
  {
    var last := phases[|phases| - 1];
    if n in PhaseCaptures(attempt, last) {
      CapturesArePrefix(attempt, last.names);
    } else {
      CapturesAreListed(attempt, phases[..|phases| - 1], n);
    }
  }

  /** The phase reached this certificate: all before it were applied, and it was applied or failed only in the write. */
  ghost predicate Reaches(attempt: string -> Attempt, p: Phase, n: string) {
    && !p.skipped
    && exists i | 0 <= i < |p.names| ::
         && p.names[i] == n && (attempt(n) == Applied || attempt(n) == WriteFailed)
         && forall j | 0 <= j < i :: attempt(p.names[j]) == Applied
  }

  lemma PhaseCapturesReached(attempt: string -> Attempt, p: Phase, n: string)
    ensures n in PhaseCaptures(attempt, p) <==> Reaches(attempt, p, n)
  {
    var captured := CapturedNames(attempt, p.names);
    CapturesArePrefix(attempt, p.names);
    if !p.skipped && n in captured {
      var i :| 0 <= i < |captured| && captured[i] == n;
      assert p.names[i] == n;
      CapturedIff(attempt, p.names, i);
    }
    if Reaches(attempt, p, n) {
      var i :| 0 <= i < |p.names| && p.names[i] == n && (attempt(n) == Applied || attempt(n) == WriteFailed)
            && forall j | 0 <= j < i :: attempt(p.names[j]) == Applied;
      CapturedIff(attempt, p.names, i);
      assert captured[i] == p.names[i];
    }
  }

  /** The gate reads what the phases reached, each phase on its own: a failing one does not keep the next from running. */
  lemma {:induction false} CapturedIffReached(attempt: string -> Attempt, phases: seq<Phase>, n: string)
    ensures n in AllCaptures(attempt, phases) <==> exists p | p in phases :: Reaches(attempt, p, n)
    decreases |phases|
  {
    if phases != [] {
      var front, last := phases[..|phases| - 1], phases[|phases| - 1];
      CapturedIffReached(attempt, front, n);
      PhaseCapturesReached(attempt, last, n);
      assert forall p :: p in phases <==> p in front || p == last;
    }
  }

  /** The map holds the ensured names and nothing else, each with the revision of the certificate of that name. */
  lemma {:induction false} RevisionsByName(c: Cluster, names: seq<string>)
    requires c.Valid() && AllReady(c, names)
    ensures RevisionMap(Objects(c, names)).Keys == Elements(names)
    ensures forall n | n in names :: RevisionMap(Objects(c, names))[n] == RevisionText(c.certs[n])
    decreases |names|
  {
    if names != [] {
      var front, last := names[..|names| - 1], names[|names| - 1];
      assert Objects(c, names)[..|names| - 1] == Objects(c, front);
      assert last in names && c.Ready(last);
      RevisionsByName(c, front);
      assert Elements(names) == Elements(front) + {last};
    }
  }

  /** No phase is skipped and every certificate is applied. */
  ghost predicate NothingFails(attempt: string -> Attempt, phases: seq<Phase>) {
    forall p | p in phases :: !p.skipped && forall n | n in p.names :: attempt(n) == Applied
  }

  ghost predicate Listed(phases: seq<Phase>, n: string) {
    exists p | p in phases :: n in p.names
  }

  lemma {:induction false} AllNamesAreListed(phases: seq<Phase>, n: string)
    ensures n in AllNames(phases) <==> Listed(phases, n)
    decreases |phases|
  {
    if phases != [] {
      AllNamesAreListed(phases[..|phases| - 1], n);
      assert forall p :: p in phases <==> p in phases[..|phases| - 1] || p == phases[|phases| - 1];
    }
  }

  /** Every certificate of every phase exists, with Ready=True before any other Ready condition. */
  ghost predicate EveryoneIsReady(c: Cluster, phases: seq<Phase>) {
    forall n | Listed(phases, n) :: n in c.certs && FirstReadyIsTrue(c.certs[n].conditions)
  }

  lemma AllReadyIffEveryoneIs(c: Cluster, phases: seq<Phase>)
    ensures AllReady(c, AllNames(phases)) <==> EveryoneIsReady(c, phases)
  {
    forall n
      ensures n in AllNames(phases) <==> Listed(phases, n)
      ensures c.Ready(n) <==> n in c.certs && FirstReadyIsTrue(c.certs[n].conditions)
    {
      AllNamesAreListed(phases, n);
      if n in c.certs {
        ReadyInFirst(c.certs[n].conditions);
      }
    }
  }

  /**
   When nothing fails, the gate opens exactly if every certificate of every phase exists and is ready; the revisions
   then are those of these certificates, each under its name, and each gets an annotation key of its own.
   */
  lemma OpenGateMeansAllReady(c: Cluster, phases: seq<Phase>, policy: Policy)
    requires c.Valid() && NothingFails(c.attempt, phases)
    ensures GateOpens(c, phases, policy) <==> EveryoneIsReady(c, phases)
    ensures GateOpens(c, phases, policy) ==>
      var revisions := RevisionMap(Objects(c, AllCaptures(c.attempt, phases)));
      && (forall n :: n in revisions <==> Listed(phases, n))
      && (forall n | n in revisions :: revisions[n] == Itoa(c.certs[n].revision.GetOr(0)))
      && |AnnotationKeysWith(GROUP_PREFIX, "cert-", revisions.Keys, "-revision")| == |revisions.Keys|
  {
    assert !AnyErrs(c.attempt, phases);
    AllCaptured(c.attempt, phases);
    AllReadyIffEveryoneIs(c, phases);
    if GateOpens(c, phases, policy) {
      RevisionsByName(c, AllNames(phases));
      forall n
        ensures n in Elements(AllNames(phases)) <==> Listed(phases, n)
      {
        AllNamesAreListed(phases, n);
      }
      DistinctKeys(GROUP_PREFIX, "cert-", Elements(AllNames(phases)), "-revision");
    }
  }

  /** The annotation a published object carries for a certificate. */
  ghost predicate CarriesRevision(c: Cluster, annotations: map<string, string>, n: string) {
    var key := "operator.kcp.io/cert-" + n + "-revision";
    n in c.certs && key in annotations && annotations[key] == Itoa(c.certs[n].revision.GetOr(0))
  }

  lemma JoinedKey(group: string, prefix: string, joined: string, n: string, suffix: string)
    requires joined == group + prefix
    ensures AnnotationKeyWith(group, prefix, n, suffix) == joined + n + suffix
  {
  }

  /** What is published when nothing fails, told from the certificates. */
  lemma PublishedRevisions(c: Cluster, phases: seq<Phase>, policy: Policy, user: map<string, string>, annotations: map<string, string>)
    requires c.Valid() && NothingFails(c.attempt, phases) && GateOpens(c, phases, policy)
    requires Annotated(user, RevisionMap(Objects(c, AllCaptures(c.attempt, phases))), annotations)
    ensures forall n | Listed(phases, n) :: CarriesRevision(c, annotations, n)
  {
    OpenGateMeansAllReady(c, phases, policy);
    assert GROUP_PREFIX + "cert-" == "operator.kcp.io/cert-";
    forall n | Listed(phases, n)
      ensures CarriesRevision(c, annotations, n)
    {
      JoinedKey(GROUP_PREFIX, "cert-", "operator.kcp.io/cert-", n, "-revision");
    }
  }

  lemma {:induction false} DistinctKeys(group: string, prefix: string, names: set<string>, suffix: string)
    ensures |AnnotationKeysWith(group, prefix, names, suffix)| == |names|
    decreases |names|
  {
    if names != {} {
      var n :| n in names;
      var rest := names - {n};
      DistinctKeys(group, prefix, rest, suffix);
      var key := AnnotationKeyWith(group, prefix, n, suffix);
      if key in AnnotationKeysWith(group, prefix, rest, suffix) {
        var m :| m in rest && key == AnnotationKeyWith(group, prefix, m, suffix);
        WrapInjective(group, "", Wrap(prefix, m, suffix), Wrap(prefix, n, suffix));
        WrapInjective(prefix, suffix, m, n);
        assert false;
      }
      assert AnnotationKeysWith(group, prefix, names, suffix) == AnnotationKeysWith(group, prefix, rest, suffix) + {key};
    }
  }

  /** Whatever certificates exist and however ready they are, an open gate means that all of them are. */
  ghost predicate Trustworthy(attempt: string -> Attempt, phases: seq<Phase>, policy: Policy) {
    forall certs | Cluster(certs, attempt).Valid() && GateOpens(Cluster(certs, attempt), phases, policy) ::
      AllReady(Cluster(certs, attempt), AllNames(phases))
  }

  /**
   A controller that gives up on errors can always trust its gate; one that goes on can exactly when no certificate was
   missed. Otherwise the list the gate reads is only part of the truth.
   */
  lemma TrustworthyIffAllCaptured(attempt: string -> Attempt, phases: seq<Phase>, policy: Policy)
    ensures Trustworthy(attempt, phases, policy) <==>
      policy.StopOnError? || forall n | n in AllNames(phases) :: n in AllCaptures(attempt, phases)
  {
    if policy.StopOnError? && !AnyErrs(attempt, phases) {
      AllCaptured(attempt, phases);
    }
    if n :| policy.Continue? && n in AllNames(phases) && n !in AllCaptures(attempt, phases) {
      MissedMeansUntrustworthy(attempt, phases, n);
    }
  }

  lemma MissedMeansUntrustworthy(attempt: string -> Attempt, phases: seq<Phase>, n: string)
    requires n in AllNames(phases) && n !in AllCaptures(attempt, phases)
    ensures !Trustworthy(attempt, phases, Continue)
  {
    var c := OnlyTheseReady(attempt, AllCaptures(attempt, phases));
    assert c == Cluster(c.certs, attempt) && GateOpens(c, phases, Continue);
    assert !c.Ready(n) && !AllReady(c, AllNames(phases));
  }

  lemma OnlyTheseReady(attempt: string -> Attempt, names: seq<string>) returns (c: Cluster)
    ensures c.attempt == attempt && c.Valid() && c.certs.Keys == Elements(names) && AllReady(c, names)
  {
    var conditions := [Condition("Ready", "True")];
    assert ReadyIn(conditions);
    c := Cluster(map k | k in Elements(names) :: Certificate(k, Some(1), conditions), attempt);
  }

  /** The proxy's early return: nothing captured, so the gate opens on an empty cluster and no revision is recorded. */
  lemma {:induction false} SkippedPhasesOpenTheGate(c: Cluster, phases: seq<Phase>)
    requires forall p | p in phases :: p.skipped
    ensures AllCaptures(c.attempt, phases) == []
    ensures GateOpens(c, phases, Continue)
    decreases |phases|
  {
    if phases != [] {
      assert phases[|phases| - 1].skipped;
      SkippedPhasesOpenTheGate(c, phases[..|phases| - 1]);
    }
  }
}
