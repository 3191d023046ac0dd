/**
 User templates on operator-generated Certificates. A template is applied to a Certificate in place after the operator
 has written its own labels and spec; only the annotations carry over from one reconcile to the next.
 */
module CertificateTemplates {
  import opened Wrappers
  import opened Ordering

  type StringMap = map<string, string>

  datatype Metadata = Metadata(annotations: StringMap, labels: StringMap)
  datatype Issuer = Issuer(name: string, kind: string, group: string)
  datatype PrivateKey = PrivateKey(algorithm: string, encoding: string, rotationPolicy: string, size: int)
  datatype Subject = Subject(
    organizations: seq<string>, countries: seq<string>, organizationalUnits: seq<string>, localities: seq<string>,
    provinces: seq<string>, streetAddresses: seq<string>, postalCodes: seq<string>, serialNumber: string)

  datatype CertificateSpec = CertificateSpec(
    dnsNames: seq<string>, ipAddresses: seq<string>, duration: Option<int>, renewBefore: Option<int>,
    secretTemplate: Option<Metadata>, issuer: Issuer, privateKey: Option<PrivateKey>, subject: Option<Subject>)

  datatype SpecTemplate = SpecTemplate(
    dnsNames: seq<string>, ipAddresses: seq<string>, duration: Option<int>, renewBefore: Option<int>,
    secretTemplate: Option<Metadata>, issuer: Option<Issuer>, privateKey: Option<PrivateKey>, subject: Option<Subject>)

  datatype Template = Template(metadata: Option<Metadata>, spec: Option<SpecTemplate>)

  /** The state of a Certificate object. */
  datatype Value = Value(metadata: Metadata, spec: CertificateSpec)

  // ----- Merging -----

  /** Keys that are already there win. */
  function MergeMaps(existing: StringMap, toAdd: StringMap): StringMap {
    toAdd + existing
  }

  function MergeSlices(a: seq<string>, b: seq<string>): seq<string> {
    SortedList(Elements(a) + Elements(b))
  }

  /** Merging lists is a join: commutative, associative, and each list it yields is a sorted set. */
  lemma MergeIsJoin(a: seq<string>, b: seq<string>, c: seq<string>)
    ensures MergeSlices(a, b) == MergeSlices(b, a)
    ensures MergeSlices(MergeSlices(a, b), c) == MergeSlices(a, MergeSlices(b, c))
    ensures MergeSlices(MergeSlices(a, b), b) == MergeSlices(a, b)
    ensures Elements(MergeSlices(a, b)) == Elements(a) + Elements(b)
    ensures Sorted(MergeSlices(a, b)) && Distinct(MergeSlices(a, b))
  {
    assert Elements(a) + Elements(b) == Elements(b) + Elements(a);
    assert (Elements(a) + Elements(b)) + Elements(c) == Elements(a) + (Elements(b) + Elements(c));
    assert (Elements(a) + Elements(b)) + Elements(b) == Elements(a) + Elements(b);
  }

  /** Merging a list with itself changes nothing exactly if it is sorted and free of duplicates. */
  lemma MergeIdempotentIffCanonical(a: seq<string>)
    ensures MergeSlices(a, a) == a <==> Sorted(a) && Distinct(a)
  {
    assert Elements(a) + Elements(a) == Elements(a);
    if Sorted(a) && Distinct(a) {
      SortedListUnique(a);
    }
  }

  // ----- What a template asks for -----

  function MergedMetadata(m: Metadata, tpl: Metadata): Metadata {
    Metadata(MergeMaps(m.annotations, tpl.annotations), MergeMaps(m.labels, tpl.labels))
  }

  function Preferred(override: string, current: string): string {
    if override != "" then override else current
  }

  function KeyFor(pk: Option<PrivateKey>, tpl: Option<PrivateKey>): Option<PrivateKey> {
    if tpl.None? then pk
    else
      var k, t := pk.GetOr(PrivateKey("", "", "", 0)), tpl.value;
      Some(PrivateKey(Preferred(t.algorithm, k.algorithm), Preferred(t.encoding, k.encoding),
                      Preferred(t.rotationPolicy, k.rotationPolicy), if t.size > 0 then t.size else k.size))
  }

  const NO_SUBJECT: Subject := Subject([], [], [], [], [], [], [], "")

  function SubjectFor(subject: Option<Subject>, tpl: Option<Subject>): Option<Subject> {
    if tpl.None? then subject
    else
      var s, t := subject.GetOr(NO_SUBJECT), tpl.value;
      Some(Subject(
        MergeSlices(s.organizations, t.organizations), MergeSlices(s.countries, t.countries),
        MergeSlices(s.organizationalUnits, t.organizationalUnits), MergeSlices(s.localities, t.localities),
        MergeSlices(s.provinces, t.provinces), MergeSlices(s.streetAddresses, t.streetAddresses),
        MergeSlices(s.postalCodes, t.postalCodes), Preferred(t.serialNumber, s.serialNumber)))
  }

  function DnsNamesFor(names: seq<string>, tpl: SpecTemplate): seq<string> {
    if tpl.dnsNames == [] then names
    else if tpl.issuer.Some? then tpl.dnsNames
    else MergeSlices(names, tpl.dnsNames)
  }

  function SpecFor(spec: CertificateSpec, tpl: SpecTemplate): CertificateSpec {
    CertificateSpec(
      DnsNamesFor(spec.dnsNames, tpl),
      MergeSlices(spec.ipAddresses, tpl.ipAddresses),
      if tpl.duration.Some? then tpl.duration else spec.duration,
      if tpl.renewBefore.Some? then tpl.renewBefore else spec.renewBefore,
      if tpl.secretTemplate.Some? then Some(MergedMetadata(spec.secretTemplate.GetOr(Metadata(map[], map[])), tpl.secretTemplate.value))
      else spec.secretTemplate,
      tpl.issuer.GetOr(spec.issuer),
      KeyFor(spec.privateKey, tpl.privateKey),
      SubjectFor(spec.subject, tpl.subject))
  }

  function Applied(v: Value, tpl: Template): Value {
    Value(if tpl.metadata.Some? then MergedMetadata(v.metadata, tpl.metadata.value) else v.metadata,
          if tpl.spec.Some? then SpecFor(v.spec, tpl.spec.value) else v.spec)
  }

  // ----- The code -----

  method ApplyPrivateKeyTemplate(pk: Option<PrivateKey>, tpl: Option<PrivateKey>) returns (r: Option<PrivateKey>)
    ensures r == KeyFor(pk, tpl)
  {
    if tpl.None? {
      return pk;
    }
    var k, t := pk.GetOr(PrivateKey("", "", "", 0)), tpl.value;
    if t.algorithm != "" {
      k := k.(algorithm := t.algorithm);
    }
    if t.encoding != "" {
      k := k.(encoding := t.encoding);
    }
    if t.rotationPolicy != "" {
      k := k.(rotationPolicy := t.rotationPolicy);
    }
    if t.size > 0 {
      k := k.(size := t.size);
    }
    r := Some(k);
  }

  method ApplySubjectTemplate(subject: Option<Subject>, tpl: Option<Subject>) returns (r: Option<Subject>)
    ensures r == SubjectFor(subject, tpl)
  {
    if tpl.None? {
      return subject;
    }
    var s, t := subject.GetOr(NO_SUBJECT), tpl.value;
    s := s.(organizations := MergeSlices(s.organizations, t.organizations));
    s := s.(countries := MergeSlices(s.countries, t.countries));
    s := s.(organizationalUnits := MergeSlices(s.organizationalUnits, t.organizationalUnits));
    s := s.(localities := MergeSlices(s.localities, t.localities));
    s := s.(provinces := MergeSlices(s.provinces, t.provinces));
    s := s.(streetAddresses := MergeSlices(s.streetAddresses, t.streetAddresses));
    s := s.(postalCodes := MergeSlices(s.postalCodes, t.postalCodes));
    if t.serialNumber != "" {
      s := s.(serialNumber := t.serialNumber);
    }
    r := Some(s);
  }

  class Certificate {
    var metadata: Metadata
    var spec: CertificateSpec

    ghost function Contents(): Value
      reads this
    {
      Value(metadata, spec)
    }

    method ApplySpecTemplate(tpl: Option<SpecTemplate>)
      modifies this`spec
      ensures spec == if tpl.Some? then SpecFor(old(spec), tpl.value) else old(spec)
    {
      if tpl.None? {
        return;
      }
      var t := tpl.value;
      if |t.dnsNames| > 0 && t.issuer.Some? {
        spec := spec.(dnsNames := t.dnsNames);
      } else if |t.dnsNames| > 0 {
        spec := spec.(dnsNames := MergeSlices(spec.dnsNames, t.dnsNames));
      }
      spec := spec.(ipAddresses := MergeSlices(spec.ipAddresses, t.ipAddresses));
      if t.duration.Some? {
        spec := spec.(duration := t.duration);
      }
      if t.renewBefore.Some? {
        spec := spec.(renewBefore := t.renewBefore);
      }
      if t.secretTemplate.Some? {
        if spec.secretTemplate.None? {
          spec := spec.(secretTemplate := Some(Metadata(map[], map[])));
        }
        var current, wanted := spec.secretTemplate.value, t.secretTemplate.value;
        spec := spec.(secretTemplate := Some(current.(annotations := MergeMaps(current.annotations, wanted.annotations))));
        current := spec.secretTemplate.value;
        spec := spec.(secretTemplate := Some(current.(labels := MergeMaps(current.labels, wanted.labels))));
      }
      if t.issuer.Some? {
        spec := spec.(issuer := t.issuer.value);
      }
      var privateKey := ApplyPrivateKeyTemplate(spec.privateKey, t.privateKey);
      spec := spec.(privateKey := privateKey);
      var subject := ApplySubjectTemplate(spec.subject, t.subject);
      spec := spec.(subject := subject);
    }

    method ApplyTemplate(tpl: Option<Template>)
      modifies this
      ensures Contents() == if tpl.Some? then Applied(old(Contents()), tpl.value) else old(Contents())
    {
      if tpl.None? {
        return;
      }
      if tpl.value.metadata.Some? {
        var wanted := tpl.value.metadata.value;
        metadata := metadata.(annotations := MergeMaps(metadata.annotations, wanted.annotations));
        metadata := metadata.(labels := MergeMaps(metadata.labels, wanted.labels));
      }
      ApplySpecTemplate(tpl.value.spec);
    }

    /** One reconcile: labels and spec are written anew before the template goes on top; annotations are left as found. */
    method Reconcile(labels: StringMap, defaults: CertificateSpec, tpl: Option<Template>)
      modifies this
      ensures Contents() == Reconciled(old(Contents()), labels, defaults, tpl)
    {
      metadata := metadata.(labels := labels);
      spec := defaults;
      ApplyTemplate(tpl);
    }
  }

  function Reconciled(v: Value, labels: StringMap, defaults: CertificateSpec, tpl: Option<Template>): Value {
    var rewritten := Value(v.metadata.(labels := labels), defaults);
    if tpl.Some? then Applied(rewritten, tpl.value) else rewritten
  }

  // ----- Properties of one application -----

  lemma MergeTwice(a: seq<string>, b: seq<string>)
    ensures MergeSlices(MergeSlices(a, b), b) == MergeSlices(a, b)
  {
  }

  lemma MetadataTwice(m: Metadata, tpl: Metadata)
    ensures MergedMetadata(MergedMetadata(m, tpl), tpl) == MergedMetadata(m, tpl)
  {
  }

  lemma SubjectTwice(subject: Option<Subject>, tpl: Option<Subject>)
    ensures SubjectFor(SubjectFor(subject, tpl), tpl) == SubjectFor(subject, tpl)
  {
  }

  lemma SpecTwice(spec: CertificateSpec, tpl: SpecTemplate)
    ensures SpecFor(SpecFor(spec, tpl), tpl) == SpecFor(spec, tpl)
  {
    MergeTwice(spec.dnsNames, tpl.dnsNames);
    MergeTwice(spec.ipAddresses, tpl.ipAddresses);
    if tpl.secretTemplate.Some? {
      MetadataTwice(spec.secretTemplate.GetOr(Metadata(map[], map[])), tpl.secretTemplate.value);
    }
    SubjectTwice(spec.subject, tpl.subject);
  }

  /** Applying a template a second time changes nothing. */
  lemma TemplateIsIdempotent(v: Value, tpl: Template)
    ensures Applied(Applied(v, tpl), tpl) == Applied(v, tpl)
  {
    if tpl.metadata.Some? {
      MetadataTwice(v.metadata, tpl.metadata.value);
    }
    if tpl.spec.Some? {
      SpecTwice(v.spec, tpl.spec.value);
    }
  }

  ghost predicate Extends(m: StringMap, base: StringMap, extra: StringMap) {
    && m.Keys == base.Keys + extra.Keys
    && (forall k | k in base :: m[k] == base[k])
    && (forall k | k in extra && k !in base :: m[k] == extra[k])
  }

  const NOTHING: Metadata := Metadata(map[], map[])
  const NO_SPEC: SpecTemplate := SpecTemplate([], [], None, None, None, None, None, None)

  ghost predicate ExtendsBoth(m: Metadata, base: Metadata, extra: Metadata) {
    Extends(m.annotations, base.annotations, extra.annotations) && Extends(m.labels, base.labels, extra.labels)
  }

  /** A template adds labels and annotations but never takes away or changes what the operator has set. */
  lemma OperatorMetadataSurvives(v: Value, tpl: Template)
    ensures ExtendsBoth(Applied(v, tpl).metadata, v.metadata, tpl.metadata.GetOr(NOTHING))
    ensures ExtendsBoth(Applied(v, tpl).spec.secretTemplate.GetOr(NOTHING), v.spec.secretTemplate.GetOr(NOTHING),
                        tpl.spec.GetOr(NO_SPEC).secretTemplate.GetOr(NOTHING))
  {
  }

  /** The list is the sorted set of what both sides have. */
  ghost predicate IsUnion(r: seq<string>, a: seq<string>, b: seq<string>) {
    Sorted(r) && Distinct(r) && forall x :: x in r <==> x in a || x in b
  }

  lemma MergeIsUnion(a: seq<string>, b: seq<string>)
    ensures IsUnion(MergeSlices(a, b), a, b)
  {
    MergeIsJoin(a, b, []);
    assert forall x :: x in MergeSlices(a, b) <==> x in Elements(MergeSlices(a, b));
  }

  /** Neither do list entries get lost: IP addresses and all lists of the subject end up as the union of both sides. */
  lemma OperatorEntriesSurvive(v: Value, tpl: Template)
    requires tpl.spec.Some?
    ensures IsUnion(Applied(v, tpl).spec.ipAddresses, v.spec.ipAddresses, tpl.spec.value.ipAddresses)
    ensures tpl.spec.value.subject.Some? ==> var r := Applied(v, tpl).spec.subject;
      r.Some? && SubjectUnion(r.value, v.spec.subject.GetOr(NO_SUBJECT), tpl.spec.value.subject.value)
  {
    MergeIsUnion(v.spec.ipAddresses, tpl.spec.value.ipAddresses);
    if tpl.spec.value.subject.Some? {
      SubjectsUnite(v.spec.subject.GetOr(NO_SUBJECT), tpl.spec.value.subject.value);
    }
  }

  ghost predicate SubjectUnion(r: Subject, s: Subject, t: Subject) {
    && IsUnion(r.organizations, s.organizations, t.organizations)
    && IsUnion(r.countries, s.countries, t.countries)
    && IsUnion(r.organizationalUnits, s.organizationalUnits, t.organizationalUnits)
    && IsUnion(r.localities, s.localities, t.localities)
    && IsUnion(r.provinces, s.provinces, t.provinces)
    && IsUnion(r.streetAddresses, s.streetAddresses, t.streetAddresses)
    && IsUnion(r.postalCodes, s.postalCodes, t.postalCodes)
  }

  lemma SubjectsUnite(s: Subject, t: Subject)
    ensures SubjectUnion(SubjectFor(Some(s), Some(t)).value, s, t)
  {
    MergeIsUnion(s.organizations, t.organizations);
    MergeIsUnion(s.countries, t.countries);
    MergeIsUnion(s.organizationalUnits, t.organizationalUnits);
    MergeIsUnion(s.localities, t.localities);
    MergeIsUnion(s.provinces, t.provinces);
    MergeIsUnion(s.streetAddresses, t.streetAddresses);
    MergeIsUnion(s.postalCodes, t.postalCodes);
  }

  /** A single value of the template wins where it is set; where it is not, the operator's stays. */
  lemma SetValuesWin(v: Value, tpl: Template)
    ensures tpl.spec.None? ==> Applied(v, tpl).spec == v.spec
    ensures tpl.spec.Some? ==> var r, t := Applied(v, tpl).spec, tpl.spec.value;
      && (if t.duration.Some? then r.duration == t.duration else r.duration == v.spec.duration)
      && (if t.renewBefore.Some? then r.renewBefore == t.renewBefore else r.renewBefore == v.spec.renewBefore)
      && (if t.issuer.Some? then r.issuer == t.issuer.value else r.issuer == v.spec.issuer)
      && (t.privateKey.None? ==> r.privateKey == v.spec.privateKey)
      && (t.privateKey.Some? ==> r.privateKey.Some?)
      && (t.privateKey.Some? ==>
            KeyFields(r.privateKey.value, v.spec.privateKey.GetOr(PrivateKey("", "", "", 0)), t.privateKey.value))
      && (t.subject.None? ==> r.subject == v.spec.subject)
      && (t.subject.Some? ==> r.subject.Some?)
      && (t.subject.Some? ==> var number := v.spec.subject.GetOr(NO_SUBJECT).serialNumber;
            r.subject.value.serialNumber == if t.subject.value.serialNumber == "" then number else t.subject.value.serialNumber)
  {
  }

  /** Field by field, what the template sets and otherwise what was there. */
  ghost predicate KeyFields(r: PrivateKey, k: PrivateKey, t: PrivateKey) {
    && r.algorithm == (if t.algorithm == "" then k.algorithm else t.algorithm)
    && r.encoding == (if t.encoding == "" then k.encoding else t.encoding)
    && r.rotationPolicy == (if t.rotationPolicy == "" then k.rotationPolicy else t.rotationPolicy)
    && r.size == (if t.size <= 0 then k.size else t.size)
  }

  /** The DNS names the operator chose have no influence on the result. */
  ghost predicate Replaces(tpl: SpecTemplate) {
    forall a, b :: DnsNamesFor(a, tpl) == DnsNamesFor(b, tpl)
  }

  /** They are dropped exactly if the template brings names of its own and overrides the issuer; else they all stay. */
  lemma ReplacesIffIssuerOverridden(tpl: SpecTemplate)
    ensures Replaces(tpl) <==> tpl.dnsNames != [] && tpl.issuer.Some?
    ensures Replaces(tpl) ==> forall names :: DnsNamesFor(names, tpl) == tpl.dnsNames
    ensures !Replaces(tpl) ==> forall names :: Elements(DnsNamesFor(names, tpl)) == Elements(names) + Elements(tpl.dnsNames)
  {
    if tpl.dnsNames == [] || tpl.issuer.None? {
      forall names
        ensures Elements(DnsNamesFor(names, tpl)) == Elements(names) + Elements(tpl.dnsNames)
      {
        assert tpl.dnsNames == [] ==> Elements(tpl.dnsNames) == {};
      }
    }
    if tpl.dnsNames == [] {
      assert DnsNamesFor([], tpl) != DnsNamesFor(["a"], tpl);
    } else if tpl.issuer.None? {
      var extra := LongerThanAll(tpl.dnsNames);
      assert extra in Elements([extra]);
      assert Elements(DnsNamesFor([extra], tpl)) != Elements(DnsNamesFor([], tpl));
    }
  }

  lemma {:induction false} LongerThanAll(names: seq<string>) returns (name: string)
    ensures name !in names && forall n | n in names :: |n| < |name|
    decreases |names|
  {
    if names == [] {
      name := "a";
    } else {
      name := LongerThanAll(names[1..]);
      if |names[0]| >= |name| {
        name := names[0] + "a";
      }
    }
  }

  // ----- Properties of many reconciles -----

  datatype Input = Input(labels: StringMap, defaults: CertificateSpec, tpl: Option<Template>)

  function After(v: Value, inputs: seq<Input>): Value {
    if inputs == [] then v
    else
      var last := inputs[|inputs| - 1];
      Reconciled(After(v, inputs[..|inputs| - 1]), last.labels, last.defaults, last.tpl)
  }

  function Annotations(i: Input): StringMap {
    if i.tpl.Some? && i.tpl.value.metadata.Some? then i.tpl.value.metadata.value.annotations else map[]
  }

  /** Labels and spec are those of the last reconcile alone; whatever earlier templates said is gone. */
  lemma OnlyLastSpecCounts(v: Value, u: Value, inputs: seq<Input>)
    requires inputs != []
    ensures var r, last := After(v, inputs), inputs[|inputs| - 1];
      && r.spec == Reconciled(u, last.labels, last.defaults, last.tpl).spec
      && r.metadata.labels == Reconciled(u, last.labels, last.defaults, last.tpl).metadata.labels
  {
  }

  /** And they are the operator's own with the template on top of them. */
  lemma LastTemplateIsInForce(v: Value, inputs: seq<Input>)
    requires inputs != [] && inputs[|inputs| - 1].tpl.Some? && inputs[|inputs| - 1].tpl.value.spec.Some?
    ensures var r, last := After(v, inputs), inputs[|inputs| - 1];
      var t := last.tpl.value.spec.value;
      && IsUnion(r.spec.ipAddresses, last.defaults.ipAddresses, t.ipAddresses)
      && (if t.duration.Some? then r.spec.duration == t.duration else r.spec.duration == last.defaults.duration)
      && Extends(r.metadata.labels, last.labels, last.tpl.value.metadata.GetOr(NOTHING).labels)
  {
    var last := inputs[|inputs| - 1];
    var rewritten := Value(After(v, inputs[..|inputs| - 1]).metadata.(labels := last.labels), last.defaults);
    OperatorEntriesSurvive(rewritten, last.tpl.value);
    SetValuesWin(rewritten, last.tpl.value);
    OperatorMetadataSurvives(rewritten, last.tpl.value);
  }

  /** `i` is the first input that sets annotation `k`. */
  ghost predicate FirstToSet(inputs: seq<Input>, k: string, i: nat) {
    i < |inputs| && k in Annotations(inputs[i]) && forall j | 0 <= j < i :: k !in Annotations(inputs[j])
  }

  /** Annotations only ever grow, and each keeps the value it was first given. */
  lemma {:induction false} FirstAnnotationSticks(v: Value, inputs: seq<Input>, k: string)
    ensures k in v.metadata.annotations ==>
      k in After(v, inputs).metadata.annotations && After(v, inputs).metadata.annotations[k] == v.metadata.annotations[k]
    ensures k !in v.metadata.annotations ==>
      (k in After(v, inputs).metadata.annotations <==> exists i: nat :: FirstToSet(inputs, k, i))
    ensures k !in v.metadata.annotations ==> forall i: nat | FirstToSet(inputs, k, i) ::
      k in After(v, inputs).metadata.annotations && After(v, inputs).metadata.annotations[k] == Annotations(inputs[i])[k]
    decreases |inputs|
  {
    if inputs != [] {
      var n := |inputs| - 1;
      FirstAnnotationSticks(v, inputs[..n], k);
      forall i | 0 <= i < n
        ensures FirstToSet(inputs, k, i) <==> FirstToSet(inputs[..n], k, i)
      {
      }
      var before := After(v, inputs[..n]).metadata.annotations;
      assert After(v, inputs).metadata.annotations == MergeMaps(before, Annotations(inputs[n]));
      if k !in v.metadata.annotations && k !in before && k in Annotations(inputs[n]) {
        assert forall j | 0 <= j < n :: k !in Annotations(inputs[j]) by {
          NobodyBefore(inputs[..n], k);
        }
        assert FirstToSet(inputs, k, n);
      }
    }
  }

  lemma {:induction false} NobodyBefore(inputs: seq<Input>, k: string)
    requires forall i: nat :: !FirstToSet(inputs, k, i)
    ensures forall j | 0 <= j < |inputs| :: k !in Annotations(inputs[j])
    decreases |inputs|
  {
    if inputs != [] {
      var front := inputs[..|inputs| - 1];
      forall i: nat
        ensures !FirstToSet(front, k, i)
      {
        assert !FirstToSet(inputs, k, i);
      }
      NobodyBefore(front, k);
      assert !FirstToSet(inputs, k, |inputs| - 1);
    }
  }

  /**
   What the current template says about an annotation is in force exactly if the Certificate did not already carry that
   annotation with another value: editing a value in a template has no effect on existing Certificates.
   */
  lemma AnnotationInForceIffNotSetBefore(v: Value, inputs: seq<Input>, k: string)
    requires inputs != [] && k in Annotations(inputs[|inputs| - 1])
    ensures var before := After(v, inputs[..|inputs| - 1]).metadata.annotations; var wanted := Annotations(inputs[|inputs| - 1]);
      && k in After(v, inputs).metadata.annotations
      && (After(v, inputs).metadata.annotations[k] == wanted[k] <==> k !in before || before[k] == wanted[k])
  {
  }

  // ----- Certificate bundles -----

  type Bytes = seq<bv8>

  const NEWLINE: Bytes := [10]

  function Join(parts: seq<Bytes>): Bytes {
    if parts == [] then []
    else if |parts| == 1 then parts[0]
    else Join(parts[..|parts| - 1]) + NEWLINE + parts[|parts| - 1]
  }

  function NonEmpty(parts: seq<Bytes>): seq<Bytes> {
    if parts == [] then []
    else
      var last := parts[|parts| - 1];
      NonEmpty(parts[..|parts| - 1]) + (if |last| > 0 then [last] else [])
  }

  method MergeCertificates(certs: seq<Bytes>) returns (r: Bytes)
    ensures r == Join(NonEmpty(certs))
  {
    var merged: seq<Bytes> := [];
    for i := 0 to |certs|
      invariant merged == NonEmpty(certs[..i])
    {
      assert certs[..i + 1][..i] == certs[..i];
      if |certs[i]| > 0 {
        merged := merged + [certs[i]];
      }
    }
    assert certs[..|certs|] == certs;
    r := Join(merged);
  }

  lemma {:induction false} JoinConcat(a: seq<Bytes>, b: seq<Bytes>)
    requires a != [] && b != []
    ensures Join(a + b) == Join(a) + NEWLINE + Join(b)
    decreases |b|
  {
    var n := |b| - 1;
    assert (a + b)[..|a + b| - 1] == a + b[..n];
    if n > 0 {
      JoinConcat(a, b[..n]);
    } else {
      assert a + b[..0] == a;
    }
  }

  lemma {:induction false} NonEmptyConcat(a: seq<Bytes>, b: seq<Bytes>)
    ensures NonEmpty(a + b) == NonEmpty(a) + NonEmpty(b)
    decreases |b|
  {
    if b != [] {
      assert (a + b)[..|a + b| - 1] == a + b[..|b| - 1];
      NonEmptyConcat(a, b[..|b| - 1]);
    } else {
      assert a + b == a;
    }
  }

  lemma {:induction false} JoinEmptyIff(parts: seq<Bytes>)
    ensures Join(NonEmpty(parts)) == [] <==> NonEmpty(parts) == []
    decreases |parts|
  {
    if parts != [] {
      JoinEmptyIff(parts[..|parts| - 1]);
    }
  }

  /** Merging merged bundles is merging all their parts at once, however they were grouped and whichever were empty. */
  lemma MergeOfMerges(a: seq<Bytes>, b: seq<Bytes>)
    ensures Join(NonEmpty([Join(NonEmpty(a)), Join(NonEmpty(b))])) == Join(NonEmpty(a + b))
  {
    NonEmptyConcat(a, b);
    JoinEmptyIff(a);
    JoinEmptyIff(b);
    NonEmptyPair(Join(NonEmpty(a)), Join(NonEmpty(b)));
    if NonEmpty(a) != [] && NonEmpty(b) != [] {
      JoinConcat(NonEmpty(a), NonEmpty(b));
    } else if NonEmpty(a) == [] {
      assert NonEmpty(a) + NonEmpty(b) == NonEmpty(b);
    } else {
      assert NonEmpty(a) + NonEmpty(b) == NonEmpty(a);
    }
  }

  lemma NonEmptyPair(x: Bytes, y: Bytes)
    ensures x != [] && y != [] ==> Join(NonEmpty([x, y])) == x + [10] + y
    ensures x == [] ==> Join(NonEmpty([x, y])) == y
    ensures y == [] ==> Join(NonEmpty([x, y])) == x
  {
    assert [x, y][..1] == [x] && [x][..0] == [];
    assert NonEmpty([x]) == if x != [] then [x] else [];
    assert NonEmpty([x, y]) == NonEmpty([x]) + if y != [] then [y] else [];
    assert [x, y][..|[x, y]| - 1] == [x];
  }
}
