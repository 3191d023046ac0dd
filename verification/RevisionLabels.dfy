/**
 The revision labels of a pod template: a traversal over volumes and containers that loads every
 referenced Secret and ConfigMap and remembers what it already loaded under the label's name.
 */
module RevisionLabels {
  import opened Wrappers
  import opened Ordering

  datatype Kind = Secret | ConfigMap

  datatype KeyRef = KeyRef(name: string, optional: Option<bool>)
  datatype Volume = Volume(name: string, secret: Option<string>, configMap: Option<string>)
  /** An env entry (valueFrom) or an envFrom entry; both look at the ConfigMap first. */
  datatype Source = Source(configMap: Option<KeyRef>, secret: Option<KeyRef>)
  datatype Container = Container(env: seq<Source>, envFrom: seq<Source>)

  datatype Ref = Ref(kind: Kind, name: string, optional: bool)

  type Revision = string
  type Labels = map<string, Revision>

  /** The answer to a Get: the object's revision, a not-found error, or any other error. */
  datatype Fetched = Found(revision: Revision) | NotFound | Broken

  datatype Error = MissingObject | OtherError
  datatype Traversal = Loaded(labels: Labels) | Failed(error: Error)

  /** What the API server answers for a name, and the truncated hash used in label names. */
  datatype Cluster = Cluster(get: (Kind, string) -> Fetched, hash: string -> string)

  function KindName(kind: Kind): string {
    match kind
    case Secret => "secret"
    case ConfigMap => "configmap"
  }

  function LabelName(c: Cluster, kind: Kind, name: string): string {
    "operator.kcp.io/" + KindName(kind) + "-" + c.hash(name) + "-rev"
  }

  function Label(c: Cluster, r: Ref): string {
    LabelName(c, r.kind, r.name)
  }

  // ----- The references of a pod, in the order they are visited -----

  function KeyRefs(kind: Kind, ref: Option<KeyRef>): seq<Ref> {
    if ref.None? then [] else [Ref(kind, ref.value.name, ref.value.optional == Some(true))]
  }

  function VolumeRefs(v: Volume): seq<Ref> {
    (if v.secret.Some? then [Ref(Secret, v.secret.value, false)] else [])
    + (if v.configMap.Some? then [Ref(ConfigMap, v.configMap.value, false)] else [])
  }

  function SourceRefs(s: Source): seq<Ref> {
    KeyRefs(ConfigMap, s.configMap) + KeyRefs(Secret, s.secret)
  }

  function AllVolumeRefs(vs: seq<Volume>): seq<Ref> {
    if vs == [] then [] else AllVolumeRefs(vs[..|vs| - 1]) + VolumeRefs(vs[|vs| - 1])
  }

  function AllSourceRefs(ss: seq<Source>): seq<Ref> {
    if ss == [] then [] else AllSourceRefs(ss[..|ss| - 1]) + SourceRefs(ss[|ss| - 1])
  }

  function AllContainerRefs(cs: seq<Container>): seq<Ref> {
    if cs == [] then []
    else AllContainerRefs(cs[..|cs| - 1]) + (AllSourceRefs(cs[|cs| - 1].env) + AllSourceRefs(cs[|cs| - 1].envFrom))
  }

  function PodRefs(volumes: seq<Volume>, containers: seq<Container>): seq<Ref> {
    AllVolumeRefs(volumes) + AllContainerRefs(containers)
  }

  // ----- The traversal as a fold -----

  function Load(c: Cluster, labels: Labels, r: Ref): Traversal {
    if Label(c, r) in labels then Loaded(labels)
    else
      match c.get(r.kind, r.name)
      case Found(revision) => Loaded(labels[Label(c, r) := revision])
      case NotFound => if r.optional then Loaded(labels) else Failed(MissingObject)
      case Broken => Failed(OtherError)
  }

  function Walk(c: Cluster, labels: Labels, refs: seq<Ref>): Traversal
    decreases |refs|
  {
    if refs == [] then Loaded(labels)
    else
      match Walk(c, labels, refs[..|refs| - 1])
      case Loaded(l) => Load(c, l, refs[|refs| - 1])
      case Failed(e) => Failed(e)
  }

  lemma {:induction false} WalkConcat(c: Cluster, labels: Labels, a: seq<Ref>, b: seq<Ref>)
    ensures Walk(c, labels, a + b)
         == match Walk(c, labels, a) case Loaded(l) => Walk(c, l, b) case Failed(e) => Failed(e)
    decreases |b|
  {
    if b == [] {
      assert a + b == a;
    } else {
      var front := b[..|b| - 1];
      assert (a + b)[..|a + b| - 1] == a + front;
      WalkConcat(c, labels, a, front);
    }
  }

  lemma WalkOne(c: Cluster, labels: Labels, r: Ref)
    ensures Walk(c, labels, [r]) == Load(c, labels, r)
  {
  }

  // ----- The specification, which knows no order and no memory -----

  /** A reference that cannot be satisfied: a mandatory object is missing, or the lookup itself fails. */
  predicate Fails(c: Cluster, r: Ref) {
    var f := c.get(r.kind, r.name);
    f.Broken? || (f.NotFound? && !r.optional)
  }

  predicate Exists(c: Cluster, r: Ref) {
    c.get(r.kind, r.name).Found?
  }

  /** Exactly one entry per existing referenced object, holding its revision. */
  ghost predicate ExactLabels(c: Cluster, refs: seq<Ref>, labels: Labels) {
    && (forall r | r in refs && Exists(c, r) :: Label(c, r) in labels && labels[Label(c, r)] == c.get(r.kind, r.name).revision)
    && (forall l | l in labels :: exists r | r in refs :: Exists(c, r) && Label(c, r) == l)
  }

  /** Distinct names referenced under one kind have distinct truncated hashes. */
  ghost predicate CollisionFree(c: Cluster, refs: seq<Ref>) {
    forall a, b | a in refs && b in refs && a.kind == b.kind && c.hash(a.name) == c.hash(b.name) :: a.name == b.name
  }

  lemma LabelDetermines(c: Cluster, a: Ref, b: Ref)
    requires Label(c, a) == Label(c, b)
    ensures a.kind == b.kind && c.hash(a.name) == c.hash(b.name)
  {
    var prefix := "operator.kcp.io/";
    assert Label(c, a)[|prefix|] == KindName(a.kind)[0] && Label(c, b)[|prefix|] == KindName(b.kind)[0];
    var start := prefix + KindName(a.kind) + "-";
    assert Label(c, a)[|start|..] == c.hash(a.name) + "-rev";
    assert Label(c, b)[|start|..] == c.hash(b.name) + "-rev";
    assert (c.hash(a.name) + "-rev")[..|c.hash(a.name)|] == (c.hash(b.name) + "-rev")[..|c.hash(b.name)|];
  }

  /**
   The memoised traversal refines the specification, whatever the order and the mix of optional and mandatory
   references: it fails if and only if some reference fails, and otherwise yields exactly the specified labels.
   */
  lemma {:induction false} WalkMeetsSpec(c: Cluster, refs: seq<Ref>)
    requires CollisionFree(c, refs)
    ensures Walk(c, map[], refs).Failed? <==> exists r | r in refs :: Fails(c, r)
    ensures Walk(c, map[], refs).Loaded? ==> ExactLabels(c, refs, Walk(c, map[], refs).labels)
    decreases |refs|
  {
    if refs != [] {
      var front, last := refs[..|refs| - 1], refs[|refs| - 1];
      assert forall r :: r in refs <==> r in front || r == last;
      WalkMeetsSpec(c, front);
      if Walk(c, map[], front).Loaded? {
        LoadExtends(c, front, last, Walk(c, map[], front).labels);
        assert refs == front + [last];
      }
    }
  }

  lemma LabelTakenBySame(c: Cluster, front: seq<Ref>, last: Ref, labels: Labels)
    requires CollisionFree(c, front + [last]) && ExactLabels(c, front, labels) && Label(c, last) in labels
    ensures Exists(c, last) && labels[Label(c, last)] == c.get(last.kind, last.name).revision
  {
    var r :| r in front && Exists(c, r) && Label(c, r) == Label(c, last);
    LabelDetermines(c, r, last);
    assert r in front + [last] && last in front + [last];
  }

  lemma LabelFreshlyTaken(c: Cluster, front: seq<Ref>, last: Ref, labels: Labels)
    requires CollisionFree(c, front + [last]) && ExactLabels(c, front, labels) && Label(c, last) !in labels && Exists(c, last)
    ensures ExactLabels(c, front + [last], labels[Label(c, last) := c.get(last.kind, last.name).revision])
  {
    var l' := labels[Label(c, last) := c.get(last.kind, last.name).revision];
    assert last in front + [last];
    forall l | l in l'
      ensures exists r | r in front + [last] :: Exists(c, r) && Label(c, r) == l
    {
      if l in labels {
        var r :| r in front && Exists(c, r) && Label(c, r) == l;
        assert r in front + [last];
      }
    }
  }

  lemma NothingToAdd(c: Cluster, front: seq<Ref>, last: Ref, labels: Labels)
    requires ExactLabels(c, front, labels)
    requires Exists(c, last) ==> Label(c, last) in labels && labels[Label(c, last)] == c.get(last.kind, last.name).revision
    ensures ExactLabels(c, front + [last], labels)
  {
  }

  lemma LoadFails(c: Cluster, front: seq<Ref>, last: Ref, labels: Labels)
    requires CollisionFree(c, front + [last]) && ExactLabels(c, front, labels)
    ensures Load(c, labels, last).Failed? <==> Fails(c, last)
  {
    if Label(c, last) in labels {
      LabelTakenBySame(c, front, last, labels);
    }
  }

  lemma LoadExtends(c: Cluster, front: seq<Ref>, last: Ref, labels: Labels)
    requires CollisionFree(c, front + [last]) && ExactLabels(c, front, labels)
    ensures Load(c, labels, last).Failed? <==> Fails(c, last)
    ensures Load(c, labels, last).Loaded? ==> ExactLabels(c, front + [last], Load(c, labels, last).labels)
  {
    LoadFails(c, front, last, labels);
    if Label(c, last) in labels {
      LabelTakenBySame(c, front, last, labels);
      NothingToAdd(c, front, last, labels);
    } else if Exists(c, last) {
      LabelFreshlyTaken(c, front, last, labels);
      assert Load(c, labels, last).labels == labels[Label(c, last) := c.get(last.kind, last.name).revision];
    } else {
      NothingToAdd(c, front, last, labels);
    }
  }

  predicate MissingMount(c: Cluster, r: Ref) {
    !r.optional && c.get(r.kind, r.name).NotFound?
  }

  /** When every lookup answers, failing means exactly that a mandatory object is missing, and it is reported so. */
  lemma {:induction false} FailureIsMissingMount(c: Cluster, refs: seq<Ref>)
    requires CollisionFree(c, refs) && forall r | r in refs :: !c.get(r.kind, r.name).Broken?
    ensures Walk(c, map[], refs) == Failed(MissingObject) <==> exists r | r in refs :: MissingMount(c, r)
    ensures Walk(c, map[], refs) != Failed(OtherError)
    decreases |refs|
  {
    if refs != [] {
      var front, last := refs[..|refs| - 1], refs[|refs| - 1];
      assert refs == front + [last];
      assert forall r :: r in refs <==> r in front || r == last;
      assert Fails(c, last) <==> MissingMount(c, last);
      FailureIsMissingMount(c, front);
      WalkMeetsSpec(c, front);
      if Walk(c, map[], front).Loaded? {
        LoadExtends(c, front, last, Walk(c, map[], front).labels);
      }
    }
  }

  lemma WalksSucceedTogether(c: Cluster, a: seq<Ref>, b: seq<Ref>)
    requires CollisionFree(c, a) && forall r :: r in a <==> r in b
    ensures CollisionFree(c, b)
    ensures Walk(c, map[], a).Loaded? <==> Walk(c, map[], b).Loaded?
  {
    WalkMeetsSpec(c, a);
    forall x, y | x in b && y in b && x.kind == y.kind && c.hash(x.name) == c.hash(y.name)
      ensures x.name == y.name
    {
      assert x in a && y in a;
    }
    WalkMeetsSpec(c, b);
  }

  lemma ExactLabelsAreUnique(c: Cluster, a: seq<Ref>, b: seq<Ref>, la: Labels, lb: Labels)
    requires ExactLabels(c, a, la) && ExactLabels(c, b, lb) && forall r :: r in a <==> r in b
    ensures la == lb
  {
  }

  /** The labels do not depend on the order or the multiplicity of the references. */
  lemma LabelsIgnoreOrder(c: Cluster, a: seq<Ref>, b: seq<Ref>)
    requires CollisionFree(c, a) && forall r :: r in a <==> r in b
    ensures Walk(c, map[], a).Loaded? <==> Walk(c, map[], b).Loaded?
    ensures Walk(c, map[], a).Loaded? ==> Walk(c, map[], a) == Walk(c, map[], b)
  {
    WalksSucceedTogether(c, a, b);
    if Walk(c, map[], a).Loaded? {
      assert ExactLabels(c, a, Walk(c, map[], a).labels) by { WalkMeetsSpec(c, a); }
      assert ExactLabels(c, b, Walk(c, map[], b).labels) by { WalkMeetsSpec(c, b); }
      ExactLabelsAreUnique(c, a, b, Walk(c, map[], a).labels, Walk(c, map[], b).labels);
    }
  }

  /** Without collision freedom a missing mandatory object can go unnoticed behind another one's label. */
  lemma CollisionHidesMissing(c: Cluster, a: Ref, b: Ref)
    requires a.kind == b.kind && c.hash(a.name) == c.hash(b.name)
    requires Exists(c, a) && Fails(c, b)
    ensures Walk(c, map[], [a, b]).Loaded? && Walk(c, map[], [b, a]).Failed?
  {
    WalkOne(c, map[], a);
    WalkOne(c, map[], b);
    assert [a, b][..1] == [a] && [b, a][..1] == [b];
  }

  // ----- The same, told from the pod -----

  /** A mention by an env or envFrom entry is mandatory unless it says that it is optional. */
  predicate KeyMentions(ref: Option<KeyRef>, name: string, mandatory: bool) {
    ref.Some? && ref.value.name == name && (mandatory ==> ref.value.optional != Some(true))
  }

  predicate VolumeMentions(v: Volume, kind: Kind, name: string) {
    match kind
    case Secret => v.secret == Some(name)
    case ConfigMap => v.configMap == Some(name)
  }

  predicate SourceMentions(e: Source, kind: Kind, name: string, mandatory: bool) {
    match kind
    case Secret => KeyMentions(e.secret, name, mandatory)
    case ConfigMap => KeyMentions(e.configMap, name, mandatory)
  }

  ghost predicate SomeVolumeMentions(vs: seq<Volume>, kind: Kind, name: string) {
    exists v | v in vs :: VolumeMentions(v, kind, name)
  }

  ghost predicate SomeSourceMentions(ss: seq<Source>, kind: Kind, name: string, mandatory: bool) {
    exists e | e in ss :: SourceMentions(e, kind, name, mandatory)
  }

  ghost predicate ContainerMentions(k: Container, kind: Kind, name: string, mandatory: bool) {
    SomeSourceMentions(k.env, kind, name, mandatory) || SomeSourceMentions(k.envFrom, kind, name, mandatory)
  }

  ghost predicate SomeContainerMentions(cs: seq<Container>, kind: Kind, name: string, mandatory: bool) {
    exists k | k in cs :: ContainerMentions(k, kind, name, mandatory)
  }

  /** The pod mounts this object, or reads it into the environment of some container; mounts are always mandatory. */
  ghost predicate Mentions(volumes: seq<Volume>, containers: seq<Container>, kind: Kind, name: string, mandatory: bool) {
    SomeVolumeMentions(volumes, kind, name) || SomeContainerMentions(containers, kind, name, mandatory)
  }

  ghost predicate PodCollisionFree(c: Cluster, volumes: seq<Volume>, containers: seq<Container>) {
    forall kind, a, b |
      Mentions(volumes, containers, kind, a, false) && Mentions(volumes, containers, kind, b, false) && c.hash(a) == c.hash(b) ::
      a == b
  }

  /** A mandatory object is not there. */
  ghost predicate Lacks(c: Cluster, volumes: seq<Volume>, containers: seq<Container>) {
    exists kind, name :: Mentions(volumes, containers, kind, name, true) && c.get(kind, name).NotFound?
  }

  ghost predicate SomeLookupBreaks(c: Cluster, volumes: seq<Volume>, containers: seq<Container>) {
    exists kind, name :: Mentions(volumes, containers, kind, name, false) && c.get(kind, name).Broken?
  }

  function Spelled(c: Cluster, kindText: string, name: string): string {
    "operator.kcp.io/" + kindText + "-" + c.hash(name) + "-rev"
  }

  ghost predicate EntriesFor(c: Cluster, volumes: seq<Volume>, containers: seq<Container>, kind: Kind, kindText: string, labels: Labels) {
    forall name | Mentions(volumes, containers, kind, name, false) && c.get(kind, name).Found? ::
      var l := Spelled(c, kindText, name);
      l in labels && labels[l] == c.get(kind, name).revision
  }

  ghost predicate IsEntry(c: Cluster, volumes: seq<Volume>, containers: seq<Container>, kind: Kind, kindText: string, l: string) {
    exists name :: Mentions(volumes, containers, kind, name, false) && c.get(kind, name).Found? && l == Spelled(c, kindText, name)
  }

  ghost predicate OnlyEntries(c: Cluster, volumes: seq<Volume>, containers: seq<Container>, labels: Labels) {
    forall l | l in labels ::
      IsEntry(c, volumes, containers, Secret, "secret", l) || IsEntry(c, volumes, containers, ConfigMap, "configmap", l)
  }

  /** One label per mentioned object that exists, under its own kind, holding its revision; and no other label. */
  ghost predicate LabelsOfPod(c: Cluster, volumes: seq<Volume>, containers: seq<Container>, labels: Labels) {
    && EntriesFor(c, volumes, containers, Secret, "secret", labels)
    && EntriesFor(c, volumes, containers, ConfigMap, "configmap", labels)
    && OnlyEntries(c, volumes, containers, labels)
  }

  ghost predicate OutcomeOfPod(c: Cluster, volumes: seq<Volume>, containers: seq<Container>, r: Traversal) {
    && (r.Failed? <==> Lacks(c, volumes, containers) || SomeLookupBreaks(c, volumes, containers))
    && (r.Failed? && !SomeLookupBreaks(c, volumes, containers) ==> r.error == MissingObject)
    && (r.Loaded? ==> LabelsOfPod(c, volumes, containers, r.labels))
  }

  /** The object is among the references, and among the mandatory ones if that is asked. */
  predicate Visits(refs: seq<Ref>, kind: Kind, name: string, mandatory: bool) {
    Ref(kind, name, false) in refs || (!mandatory && Ref(kind, name, true) in refs)
  }

  lemma {:induction false} VolumesVisit(vs: seq<Volume>, kind: Kind, name: string, mandatory: bool)
    ensures Visits(AllVolumeRefs(vs), kind, name, mandatory) <==> SomeVolumeMentions(vs, kind, name)
    decreases |vs|
  {
    if vs != [] {
      var front, last := vs[..|vs| - 1], vs[|vs| - 1];
      VolumesVisit(front, kind, name, mandatory);
      assert Visits(VolumeRefs(last), kind, name, mandatory) <==> VolumeMentions(last, kind, name);
      assert forall v :: v in vs <==> v in front || v == last;
    }
  }

  lemma {:induction false} SourcesVisit(ss: seq<Source>, kind: Kind, name: string, mandatory: bool)
    ensures Visits(AllSourceRefs(ss), kind, name, mandatory) <==> SomeSourceMentions(ss, kind, name, mandatory)
    decreases |ss|
  {
    if ss != [] {
      var front, last := ss[..|ss| - 1], ss[|ss| - 1];
      SourcesVisit(front, kind, name, mandatory);
      assert Visits(SourceRefs(last), kind, name, mandatory) <==> SourceMentions(last, kind, name, mandatory);
      assert forall e :: e in ss <==> e in front || e == last;
    }
  }

  lemma VisitsConcat(a: seq<Ref>, b: seq<Ref>, kind: Kind, name: string, mandatory: bool)
    ensures Visits(a + b, kind, name, mandatory) <==> Visits(a, kind, name, mandatory) || Visits(b, kind, name, mandatory)
  {
  }

  lemma {:induction false} ContainersVisit(cs: seq<Container>, kind: Kind, name: string, mandatory: bool)
    ensures Visits(AllContainerRefs(cs), kind, name, mandatory) <==> SomeContainerMentions(cs, kind, name, mandatory)
    decreases |cs|
  {
    if cs != [] {
      var front, last := cs[..|cs| - 1], cs[|cs| - 1];
      ContainersVisit(front, kind, name, mandatory);
      SourcesVisit(last.env, kind, name, mandatory);
      SourcesVisit(last.envFrom, kind, name, mandatory);
      VisitsConcat(AllSourceRefs(last.env), AllSourceRefs(last.envFrom), kind, name, mandatory);
      VisitsConcat(AllContainerRefs(front), AllSourceRefs(last.env) + AllSourceRefs(last.envFrom), kind, name, mandatory);
      assert forall k :: k in cs <==> k in front || k == last;
      assert SomeContainerMentions(cs, kind, name, mandatory) <==>
        SomeContainerMentions(front, kind, name, mandatory) || ContainerMentions(last, kind, name, mandatory);
    }
  }

  /** What the traversal visits is what the pod mentions, with a mandatory visit for each mandatory mention. */
  lemma PodVisits(volumes: seq<Volume>, containers: seq<Container>, kind: Kind, name: string, mandatory: bool)
    ensures Visits(PodRefs(volumes, containers), kind, name, mandatory) <==> Mentions(volumes, containers, kind, name, mandatory)
  {
    VolumesVisit(volumes, kind, name, mandatory);
    ContainersVisit(containers, kind, name, mandatory);
  }

  lemma PodRefsDoNotCollide(c: Cluster, volumes: seq<Volume>, containers: seq<Container>)
    requires PodCollisionFree(c, volumes, containers)
    ensures CollisionFree(c, PodRefs(volumes, containers))
  {
    var refs := PodRefs(volumes, containers);
    forall a, b | a in refs && b in refs && a.kind == b.kind && c.hash(a.name) == c.hash(b.name)
      ensures a.name == b.name
    {
      assert a == Ref(a.kind, a.name, a.optional) && b == Ref(b.kind, b.name, b.optional);
      PodVisits(volumes, containers, a.kind, a.name, false);
      PodVisits(volumes, containers, b.kind, b.name, false);
    }
  }

  lemma PodFailures(c: Cluster, volumes: seq<Volume>, containers: seq<Container>)
    ensures (exists r | r in PodRefs(volumes, containers) :: Fails(c, r))
      <==> Lacks(c, volumes, containers) || SomeLookupBreaks(c, volumes, containers)
    ensures !SomeLookupBreaks(c, volumes, containers) ==>
      forall r | r in PodRefs(volumes, containers) :: !c.get(r.kind, r.name).Broken?
  {
    var refs := PodRefs(volumes, containers);
    forall r | r in refs
      ensures Mentions(volumes, containers, r.kind, r.name, false)
      ensures !r.optional ==> Mentions(volumes, containers, r.kind, r.name, true)
    {
      assert r == Ref(r.kind, r.name, r.optional);
      PodVisits(volumes, containers, r.kind, r.name, false);
      PodVisits(volumes, containers, r.kind, r.name, true);
    }
    if kind, name :| Mentions(volumes, containers, kind, name, true) && c.get(kind, name).NotFound? {
      PodVisits(volumes, containers, kind, name, true);
      assert Fails(c, Ref(kind, name, false));
    }
    if kind, name :| Mentions(volumes, containers, kind, name, false) && c.get(kind, name).Broken? {
      PodVisits(volumes, containers, kind, name, false);
      assert Fails(c, Ref(kind, name, false)) && Fails(c, Ref(kind, name, true));
    }
  }

  /** Every mention has a label, spelled `Label` for some reference of the traversal. */
  lemma MentionIsVisited(c: Cluster, volumes: seq<Volume>, containers: seq<Container>, kind: Kind, name: string) returns (r: Ref)
    requires Mentions(volumes, containers, kind, name, false)
    ensures r in PodRefs(volumes, containers) && r.kind == kind && r.name == name
  {
    PodVisits(volumes, containers, kind, name, false);
    r := if Ref(kind, name, false) in PodRefs(volumes, containers) then Ref(kind, name, false) else Ref(kind, name, true);
  }

  lemma PodEntries(c: Cluster, volumes: seq<Volume>, containers: seq<Container>, kind: Kind, labels: Labels)
    requires ExactLabels(c, PodRefs(volumes, containers), labels)
    ensures EntriesFor(c, volumes, containers, kind, KindName(kind), labels)
  {
    forall name | Mentions(volumes, containers, kind, name, false) && c.get(kind, name).Found?
      ensures var l := Spelled(c, KindName(kind), name); l in labels && labels[l] == c.get(kind, name).revision
    {
      var r := MentionIsVisited(c, volumes, containers, kind, name);
      assert Label(c, r) == Spelled(c, KindName(kind), name);
    }
  }

  lemma LabelIsEntry(c: Cluster, volumes: seq<Volume>, containers: seq<Container>, r: Ref)
    requires r in PodRefs(volumes, containers) && Exists(c, r)
    ensures IsEntry(c, volumes, containers, r.kind, KindName(r.kind), Label(c, r))
  {
    assert r == Ref(r.kind, r.name, r.optional);
    PodVisits(volumes, containers, r.kind, r.name, false);
    assert Label(c, r) == Spelled(c, KindName(r.kind), r.name);
  }

  lemma PodOnlyEntries(c: Cluster, volumes: seq<Volume>, containers: seq<Container>, refs: seq<Ref>, labels: Labels)
    requires refs == PodRefs(volumes, containers)
    requires forall l | l in labels :: exists r | r in refs :: Exists(c, r) && Label(c, r) == l
    ensures OnlyEntries(c, volumes, containers, labels)
  {
    forall l | l in labels
      ensures IsEntry(c, volumes, containers, Secret, "secret", l) || IsEntry(c, volumes, containers, ConfigMap, "configmap", l)
    {
      LabelBelongs(c, volumes, containers, refs, l);
    }
  }

  lemma LabelBelongs(c: Cluster, volumes: seq<Volume>, containers: seq<Container>, refs: seq<Ref>, l: string)
    requires refs == PodRefs(volumes, containers) && exists r | r in refs :: Exists(c, r) && Label(c, r) == l
    ensures IsEntry(c, volumes, containers, Secret, "secret", l) || IsEntry(c, volumes, containers, ConfigMap, "configmap", l)
  {
    var r :| r in refs && Exists(c, r) && Label(c, r) == l;
    LabelIsEntry(c, volumes, containers, r);
    match r.kind
    case Secret => assert IsEntry(c, volumes, containers, Secret, "secret", l);
    case ConfigMap => assert IsEntry(c, volumes, containers, ConfigMap, "configmap", l);
  }

  lemma PodLabels(c: Cluster, volumes: seq<Volume>, containers: seq<Container>, labels: Labels)
    requires ExactLabels(c, PodRefs(volumes, containers), labels)
    ensures LabelsOfPod(c, volumes, containers, labels)
  {
    PodEntries(c, volumes, containers, Secret, labels);
    PodEntries(c, volumes, containers, ConfigMap, labels);
    PodOnlyEntries(c, volumes, containers, PodRefs(volumes, containers), labels);
  }

  /**
   Without collisions the traversal of a pod fails exactly if a mounted or otherwise mandatory Secret or ConfigMap is
   missing, or a lookup fails; otherwise it yields one label for each mentioned object that exists.
   */
  lemma PodWalkMeetsSpec(c: Cluster, volumes: seq<Volume>, containers: seq<Container>)
    ensures PodCollisionFree(c, volumes, containers) ==>
      OutcomeOfPod(c, volumes, containers, Walk(c, map[], PodRefs(volumes, containers)))
  {
    if PodCollisionFree(c, volumes, containers) {
      PodWalkOutcome(c, volumes, containers);
    }
  }

  lemma PodWalkOutcome(c: Cluster, volumes: seq<Volume>, containers: seq<Container>)
    requires PodCollisionFree(c, volumes, containers)
    ensures OutcomeOfPod(c, volumes, containers, Walk(c, map[], PodRefs(volumes, containers)))
  {
    var refs := PodRefs(volumes, containers);
    PodRefsDoNotCollide(c, volumes, containers);
    PodFailures(c, volumes, containers);
    WalkMeetsSpec(c, refs);
    if !SomeLookupBreaks(c, volumes, containers) {
      FailureIsMissingMount(c, refs);
    }
    if Walk(c, map[], refs).Loaded? {
      PodLabels(c, volumes, containers, Walk(c, map[], refs).labels);
    }
  }

  // ----- The traversal as written -----

  /** The closures of getRelatedRevisionLabels share one captured map. */
  class Loader {
    const c: Cluster
    var labels: Labels

    constructor (c: Cluster)
      ensures this.c == c && labels == map[]
    {
      this.c := c;
      labels := map[];
    }

    /** The captured map and a possible error, read as the value of the traversal so far. */
    ghost function Outcome(err: Option<Error>): Traversal
      reads this
    {
      match err
      case None => Loaded(labels)
      case Some(e) => Failed(e)
    }

    method LoadObject(kind: Kind, name: string, optional: bool) returns (err: Option<Error>)
      modifies this
      ensures Outcome(err) == Walk(c, old(labels), [Ref(kind, name, optional)])
    {
      WalkOne(c, labels, Ref(kind, name, optional));
      var labelName := LabelName(c, kind, name);
      if labelName in labels {
        return None;
      }
      var fetched := c.get(kind, name);
      if !fetched.Found? {
        if optional && fetched.NotFound? {
          return None;
        }
        return Some(if fetched.NotFound? then MissingObject else OtherError);
      }
      labels := labels[labelName := fetched.revision];
      err := None;
    }

    method LoadKeyRef(kind: Kind, ref: Option<KeyRef>) returns (err: Option<Error>)
      modifies this
      ensures Outcome(err) == Walk(c, old(labels), KeyRefs(kind, ref))
    {
      err := None;
      if ref.Some? {
        err := LoadObject(kind, ref.value.name, ref.value.optional.Some? && ref.value.optional.value);
      }
    }

    method LoadVolume(v: Volume) returns (err: Option<Error>)
      modifies this
      ensures Outcome(err) == Walk(c, old(labels), VolumeRefs(v))
    {
      ghost var first := if v.secret.Some? then [Ref(Secret, v.secret.value, false)] else [];
      ghost var second := if v.configMap.Some? then [Ref(ConfigMap, v.configMap.value, false)] else [];
      WalkConcat(c, labels, first, second);
      err := None;
      if v.secret.Some? {
        err := LoadObject(Secret, v.secret.value, false);
        if err.Some? {
          return;
        }
      }
      if v.configMap.Some? {
        err := LoadObject(ConfigMap, v.configMap.value, false);
      }
    }

    method LoadSources(ss: seq<Source>) returns (err: Option<Error>)
      modifies this
      ensures Outcome(err) == Walk(c, old(labels), AllSourceRefs(ss))
    {
      err := None;
      for i := 0 to |ss|
        invariant err.None? && Outcome(err) == Walk(c, old(labels), AllSourceRefs(ss[..i]))
      {
        assert ss[..i + 1][..i] == ss[..i];
        WalkConcat(c, old(labels), AllSourceRefs(ss[..i]), SourceRefs(ss[i]));
        WalkConcat(c, labels, KeyRefs(ConfigMap, ss[i].configMap), KeyRefs(Secret, ss[i].secret));
        err := LoadKeyRef(ConfigMap, ss[i].configMap);
        if err.None? {
          err := LoadKeyRef(Secret, ss[i].secret);
        }
        if err.Some? {
          SourceErrorsStay(c, old(labels), ss, i + 1);
          return;
        }
      }
      assert ss[..|ss|] == ss;
    }

    method GetRelatedRevisionLabels(volumes: seq<Volume>, containers: seq<Container>) returns (r: Traversal)
      requires labels == map[]
      modifies this
      ensures r == Walk(c, map[], PodRefs(volumes, containers))
      ensures PodCollisionFree(c, volumes, containers) ==> OutcomeOfPod(c, volumes, containers, r)
    {
      var err := LoadPod(volumes, containers);
      r := if err.Some? then Failed(err.value) else Loaded(labels);
      PodWalkMeetsSpec(c, volumes, containers);
    }

    method LoadPod(volumes: seq<Volume>, containers: seq<Container>) returns (err: Option<Error>)
      requires labels == map[]
      modifies this
      ensures Outcome(err) == Walk(c, map[], PodRefs(volumes, containers))
    {
      WalkConcat(c, map[], AllVolumeRefs(volumes), AllContainerRefs(containers));
      err := LoadVolumes(volumes);
      if err.None? {
        err := LoadContainers(containers);
      }
    }

    method LoadVolumes(volumes: seq<Volume>) returns (err: Option<Error>)
      modifies this
      ensures Outcome(err) == Walk(c, old(labels), AllVolumeRefs(volumes))
    {
      err := None;
      for i := 0 to |volumes|
        invariant err.None? && Outcome(err) == Walk(c, old(labels), AllVolumeRefs(volumes[..i]))
      {
        assert volumes[..i + 1][..i] == volumes[..i];
        WalkConcat(c, old(labels), AllVolumeRefs(volumes[..i]), VolumeRefs(volumes[i]));
        err := LoadVolume(volumes[i]);
        if err.Some? {
          VolumeErrorsStay(c, old(labels), volumes, i + 1);
          return;
        }
      }
      assert volumes[..|volumes|] == volumes;
    }

    method LoadContainers(containers: seq<Container>) returns (err: Option<Error>)
      modifies this
      ensures Outcome(err) == Walk(c, old(labels), AllContainerRefs(containers))
    {
      err := None;
      for i := 0 to |containers|
        invariant err.None? && Outcome(err) == Walk(c, old(labels), AllContainerRefs(containers[..i]))
      {
        assert containers[..i + 1][..i] == containers[..i];
        var k := containers[i];
        WalkConcat(c, old(labels), AllContainerRefs(containers[..i]), AllSourceRefs(k.env) + AllSourceRefs(k.envFrom));
        WalkConcat(c, labels, AllSourceRefs(k.env), AllSourceRefs(k.envFrom));
        err := LoadSources(k.env);
        if err.None? {
          err := LoadSources(k.envFrom);
        }
        if err.Some? {
          ContainerErrorsStay(c, old(labels), containers, i + 1);
          return;
        }
      }
      assert containers[..|containers|] == containers;
    }
  }

  // An error ends the traversal: what comes later cannot change it.

  lemma {:induction false} SourceErrorsStay(c: Cluster, labels: Labels, ss: seq<Source>, n: nat)
    requires n <= |ss| && Walk(c, labels, AllSourceRefs(ss[..n])).Failed?
    ensures Walk(c, labels, AllSourceRefs(ss)) == Walk(c, labels, AllSourceRefs(ss[..n]))
    decreases |ss|
  {
    if n == |ss| {
      assert ss[..n] == ss;
    } else {
      var front := ss[..|ss| - 1];
      assert front[..n] == ss[..n];
      SourceErrorsStay(c, labels, front, n);
      WalkConcat(c, labels, AllSourceRefs(front), SourceRefs(ss[|ss| - 1]));
    }
  }

  lemma {:induction false} VolumeErrorsStay(c: Cluster, labels: Labels, vs: seq<Volume>, n: nat)
    requires n <= |vs| && Walk(c, labels, AllVolumeRefs(vs[..n])).Failed?
    ensures Walk(c, labels, AllVolumeRefs(vs)) == Walk(c, labels, AllVolumeRefs(vs[..n]))
    decreases |vs|
  {
    if n == |vs| {
      assert vs[..n] == vs;
    } else {
      var front := vs[..|vs| - 1];
      assert front[..n] == vs[..n];
      VolumeErrorsStay(c, labels, front, n);
      WalkConcat(c, labels, AllVolumeRefs(front), VolumeRefs(vs[|vs| - 1]));
    }
  }

  lemma {:induction false} ContainerErrorsStay(c: Cluster, labels: Labels, cs: seq<Container>, n: nat)
    requires n <= |cs| && Walk(c, labels, AllContainerRefs(cs[..n])).Failed?
    ensures Walk(c, labels, AllContainerRefs(cs)) == Walk(c, labels, AllContainerRefs(cs[..n]))
    decreases |cs|
  {
    if n == |cs| {
      assert cs[..n] == cs;
    } else {
      var front := cs[..|cs| - 1];
      assert front[..n] == cs[..n];
      ContainerErrorsStay(c, labels, front, n);
      WalkConcat(c, labels, AllContainerRefs(front), AllSourceRefs(cs[|cs| - 1].env) + AllSourceRefs(cs[|cs| - 1].envFrom));
    }
  }
}
